/**
 * The row serializer: a map from each declared field's source column to its
 * output alias ("expr as alias" declares an alias), and `serialize`, which
 * copies the mapped columns of a row under their aliases and insists that
 * every declared field was found.
 */
module PostgreSQLSerializer {
  import opened Wrappers
  import opened PyStrings
  import opened Values

  const AsSep := " as "

  /** A result row as the database driver returns it: column names and values,
      in order; a join can repeat a column name. */
  type Row = seq<(string, Value)>

  /** The source column and alias of one declared field: the field itself
      when it has no " as ", else the first two pieces of
      `field.split(' as ', maxsplit=2)`. */
  function SourceAndAlias(field: string): (r: (string, string))
    ensures !Contains(field, AsSep) ==> r == (field, field)
  {
    if !Contains(field, AsSep) then (field, field)
    else
      var parts := Split(field, AsSep, 2);
      assert |parts| >= 2;
      (parts[0], parts[1])
  }

  /** A field "x as y" maps the text before the first " as " to the text up to
      the next " as " (or to the end): the field reads source, " as ", alias,
      then nothing or another " as ...". */
  lemma AliasedField(field: string)
    requires Contains(field, AsSep)
    ensures var (src, alias) := SourceAndAlias(field);
      && Find(field, AsSep) == Some(|src|)
      && !Contains(src, AsSep) && !Contains(alias, AsSep)
      && StartsWith(field, src + AsSep + alias)
      && var tail := field[|src + AsSep + alias|..];
         tail == "" || StartsWith(tail, AsSep)
  {
    var i := Find(field, AsSep).value;
    var rest := field[i + |AsSep|..];
    SplitFirst(field, AsSep, 2);
    assert SourceAndAlias(field) == (field[..i], Split(rest, AsSep, 1)[0]);
    PrefixBeforeFind(field, AsSep);
    AroundOccurrence(field, AsSep, i);
    FirstPiece(rest, AsSep);
    PrefixExtend(field[..i] + AsSep, rest, Split(rest, AsSep, 1)[0]);
  }

  /** The (source, alias) pairs of the declared fields, in order. */
  function Declared(fields: seq<string>): (ps: seq<(string, string)>)
    ensures |ps| == |fields|
    ensures forall i :: 0 <= i < |fields| ==> ps[i] == SourceAndAlias(fields[i])
  {
    seq(|fields|, i requires 0 <= i < |fields| => SourceAndAlias(fields[i]))
  }

  /** The dict comprehension over (source, alias) pairs: a later pair with the
      same source replaces an earlier one. */
  function PairMap(ps: seq<(string, string)>): map<string, string> {
    if ps == [] then map[]
    else PairMap(ps[..|ps| - 1])[ps[|ps| - 1].0 := ps[|ps| - 1].1]
  }

  /** The comprehension's keys are exactly the sources of the pairs. */
  lemma {:induction false} PairMapKeys(ps: seq<(string, string)>)
    ensures PairMap(ps).Keys == set p | p in ps :: p.0
  {
    if ps != [] {
      var prefix := ps[..|ps| - 1];
      PairMapKeys(prefix);
      assert ps == prefix + [ps[|ps| - 1]];
    }
  }

  /** The `{source: alias}` dict built from the declared fields. */
  function AliasMap(fields: seq<string>): (m: map<string, string>)
    ensures m.Keys == set f | f in fields :: SourceAndAlias(f).0
  {
    var ps := Declared(fields);
    var m := PairMap(ps);
    PairMapKeys(ps);
    assert forall f | f in fields :: SourceAndAlias(f).0 in m by {
      forall f | f in fields
        ensures SourceAndAlias(f).0 in m
      {
        var i :| 0 <= i < |fields| && fields[i] == f;
        assert ps[i] in ps;
      }
    }
    assert forall k | k in m :: exists f :: f in fields && SourceAndAlias(f).0 == k by {
      forall k | k in m
        ensures exists f :: f in fields && SourceAndAlias(f).0 == k
      {
        var p :| p in ps && p.0 == k;
        var i :| 0 <= i < |ps| && ps[i] == p;
        assert fields[i] in fields;
      }
    }
    m
  }

  /** No two pairs share a source. */
  predicate DistinctSources(ps: seq<(string, string)>) {
    forall i, j :: 0 <= i < j < |ps| ==> ps[i].0 != ps[j].0
  }

  /** Dropping the last pair keeps the sources distinct. */
  lemma DistinctPrefix(ps: seq<(string, string)>)
    requires DistinctSources(ps) && ps != []
    ensures DistinctSources(ps[..|ps| - 1])
  {
    var prefix := ps[..|ps| - 1];
    forall i, j | 0 <= i < j < |prefix|
      ensures prefix[i].0 != prefix[j].0
    {
      assert prefix[i] == ps[i] && prefix[j] == ps[j];
    }
  }

  /** The last pair's source is not among the earlier ones. */
  lemma LastSourceFresh(ps: seq<(string, string)>)
    requires DistinctSources(ps) && ps != []
    ensures ps[|ps| - 1].0 !in PairMap(ps[..|ps| - 1])
  {
    var n := |ps| - 1;
    var prefix := ps[..n];
    PairMapKeys(prefix);
  }

  /** When no two pairs share a source, each source maps to its own alias and
      there are as many entries as pairs. */
  lemma {:induction false} PairMapDistinct(ps: seq<(string, string)>)
    requires DistinctSources(ps)
    ensures forall i :: 0 <= i < |ps| ==> ps[i].0 in PairMap(ps) && PairMap(ps)[ps[i].0] == ps[i].1
    ensures |PairMap(ps)| == |ps|
  {
    if ps != [] {
      var n := |ps| - 1;
      var prefix := ps[..n];
      DistinctPrefix(ps);
      PairMapDistinct(prefix);
      LastSourceFresh(ps);
      var m := PairMap(prefix);
      assert PairMap(ps) == m[ps[n].0 := ps[n].1];
      forall i | 0 <= i < |ps|
        ensures ps[i].0 in PairMap(ps) && PairMap(ps)[ps[i].0] == ps[i].1
      {
        if i < n {
          assert ps[i] == prefix[i];
        }
      }
    }
  }

  /** When no two declared fields share a source, each source maps to the
      alias of its own field and there is one entry per field. */
  lemma AliasMapDistinct(fields: seq<string>)
    requires DistinctSources(Declared(fields))
    ensures forall i :: 0 <= i < |fields| ==>
      SourceAndAlias(fields[i]).0 in AliasMap(fields) &&
      AliasMap(fields)[SourceAndAlias(fields[i]).0] == SourceAndAlias(fields[i]).1
    ensures |AliasMap(fields)| == |fields|
  {
    PairMapDistinct(Declared(fields));
  }

  /** The aliases of a set of source columns. */
  function Image(fields: map<string, string>, s: set<string>): set<string>
    requires s <= fields.Keys
  {
    set k | k in s :: fields[k]
  }

  /** The row's mapped columns, renamed to their aliases, in row order. */
  function Renamed(fields: map<string, string>, row: Row): (r: Dict)
    ensures Keys(r) == Image(fields, Keys(row) * fields.Keys)
  {
    if row == [] then []
    else
      var rest := Renamed(fields, row[1..]);
      var k := row[0].0;
      if k in fields then [(fields[k], row[0].1)] + rest else rest
  }

  /** What `serialize` returns or raises for a row. */
  function Serialized(fields: map<string, string>, row: Row): Result<Dict, Exc> {
    var d := FromPairs(Renamed(fields, row));
    if |d| != |fields| then Failure(SerializationError) else Success(d)
  }

  /** `serialize(item)`: one pass over the row storing mapped columns under
      their alias, then the completeness check. */
  method Serialize(fields: map<string, string>, row: Row) returns (r: Result<Dict, Exc>)
    ensures r == Serialized(fields, row)
  {
    var result: Dict := [];
    var i := 0;
    while i < |row|
      invariant 0 <= i <= |row|
      invariant Update(result, Renamed(fields, row[i..])) == FromPairs(Renamed(fields, row))
    {
      var (key, val) := row[i];
      assert row[i..][1..] == row[i + 1..];
      if key in fields {
        result := Store(result, fields[key], val);
      }
      i := i + 1;
    }
    assert row[i..] == [];
    if |result| != |fields| {
      r := Failure(SerializationError);
    } else {
      r := Success(result);
    }
  }

  /** Aliases of distinct sources differ. */
  predicate Injective(fields: map<string, string>) {
    forall a, b :: a in fields && b in fields && a != b ==> fields[a] != fields[b]
  }

  /** An image of a set of keys has at most as many elements as the set, and
      exactly as many when the map is injective on it. */
  lemma {:induction false} ImageSize(fields: map<string, string>, s: set<string>)
    requires s <= fields.Keys
    ensures |Image(fields, s)| <= |s|
    ensures Injective(fields) ==> |Image(fields, s)| == |s|
    decreases |s|
  {
    if s != {} {
      var x :| x in s;
      var s' := s - {x};
      ImageSize(fields, s');
      var img := Image(fields, s);
      var img' := Image(fields, s');
      assert img == img' + {fields[x]};
      if Injective(fields) {
        assert fields[x] !in img';
      }
    }
  }

  /** When a declared source is absent from the row, `serialize` raises. */
  lemma MissingFieldFails(fields: map<string, string>, row: Row, missing: string)
    requires missing in fields && missing !in Keys(row)
    ensures Serialized(fields, row) == Failure(SerializationError)
  {
    var present := Keys(row) * fields.Keys;
    var e := Renamed(fields, row);
    var d := FromPairs(e);
    assert UniqueKeys(d) by {
      assert UniqueKeys([]);
    }
    UniqueKeysCount(d);
    assert Keys(d) == Keys(e);
    ImageSize(fields, present);
    assert present < fields.Keys by {
      assert missing in fields.Keys && missing !in present;
    }
    ProperSubsetSize(present, fields.Keys);
    assert |Keys(d)| <= |present| < |fields.Keys|;
    assert |fields.Keys| == |fields|;
    assert |d| < |fields|;
  }

  lemma ProperSubsetSize(a: set<string>, b: set<string>)
    requires a < b
    ensures |a| < |b|
  {
    assert b == a + (b - a);
    assert a * (b - a) == {};
  }

  /** When the row holds every declared source and the aliases are distinct,
      `serialize` succeeds; its keys are exactly the aliases, each carrying
      the row's value for its source (the last one, if the row repeats it),
      and nothing else from the row is copied. */
  lemma CompleteRowSerializes(fields: map<string, string>, row: Row)
    requires Injective(fields)
    requires fields.Keys <= Keys(row)
    ensures Serialized(fields, row).Success?
    ensures var d := Serialized(fields, row).value;
      && Keys(d) == fields.Values
      && forall k :: k in fields ==> Lookup(d, fields[k]) == Final(row, k)
  {
    var d := FromPairs(Renamed(fields, row));
    UniqueKeysCount(d);
    assert Keys(row) * fields.Keys == fields.Keys;
    assert Keys(d) == Image(fields, fields.Keys);
    ImageSize(fields, fields.Keys);
    forall k | k in fields
      ensures Lookup(d, fields[k]) == Final(row, k)
    {
      RenamedFinal(fields, row, k);
    }
  }

  /** Renaming keeps, for each alias, the last value of its (unique) source. */
  lemma {:induction false} RenamedFinal(fields: map<string, string>, row: Row, k: string)
    requires Injective(fields) && k in fields
    ensures Final(Renamed(fields, row), fields[k]) == Final(row, k)
  {
    if row != [] {
      RenamedFinal(fields, row[1..], k);
    }
  }
}
