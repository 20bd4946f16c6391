/**
 * The descriptor-driven read-only PostgreSQL resource: `list` turns the
 * untrusted query parameters (sort field, search text, filter expression,
 * page, count flag) into a query plan, runs it and serializes the rows; `get`
 * coerces the id to the id column's type and fetches one row; the six
 * mutators refuse. The SQL query is modelled as an abstract `QueryPlan`, and
 * the database as a pair of functions from plans to rows.
 */
module PostgreSQLReadOnlyResource {
  import opened Wrappers
  import opened PyStrings
  import opened Values
  import opened BaseResource
  import RestycornTypes
  import PostgreSQLSerializer

  /** The Python type of a column (`column.type.python_type`): `Integer` and
      `BigInteger` give `int`, `String` gives `str`, `Boolean` gives `bool`. */
  datatype ColType = IntCol | StrCol | BoolCol

  /** A table: its name and its columns. */
  datatype Table = Table(name: string, columns: map<string, ColType>)

  /** The optional join `(other_table, on_clause)`; the clause is opaque here. */
  datatype Join = Join(other: Table, on: string)

  /** A configured resource, as its constructor leaves it. */
  datatype Resource = Resource(
    table: Table,
    fields: seq<string>,
    serializer: map<string, string>,
    idField: string,
    orderByFields: seq<string>,
    filterByFields: map<string, seq<string>>,
    searchByFields: seq<string>,
    paginated: bool,
    pageSize: int,
    join: Option<Join>)

  /** The constructor: missing `search_by` and `filter_by` become empty, and
      the serializer is built from the declared fields. */
  function New(table: Table, fields: seq<string>, idField: string, orderBy: seq<string>,
               filterBy: Option<map<string, seq<string>>> := None, searchBy: Option<seq<string>> := None,
               paginated: bool := true, pageSize: int := 10, join: Option<Join> := None): (r: Resource)
    ensures r.filterByFields == (if filterBy.Some? then filterBy.value else map[])
    ensures r.searchByFields == (if searchBy.Some? then searchBy.value else [])
    ensures r.serializer.Keys == set f | f in fields :: PostgreSQLSerializer.SourceAndAlias(f).0
    ensures r.table == table && r.idField == idField && r.orderByFields == orderBy
    ensures r.paginated == paginated && r.pageSize == pageSize && r.join == join
  {
    Resource(table, fields, PostgreSQLSerializer.AliasMap(fields), idField, orderBy,
             if filterBy.Some? then filterBy.value else map[],
             if searchBy.Some? then searchBy.value else [],
             paginated, pageSize, join)
  }

  // ---------------------------------------------------------------------
  // The query plan

  datatype Direction = Ascending | Descending
  datatype Projection = CountAll | AllColumns
  datatype CmpOp = Eq | Gt | Lt

  /** `column op value`, with the value already of the column's type. */
  datatype Predicate = Compare(column: string, op: CmpOp, value: Value)

  /** `column_1 ILIKE pattern OR ... OR column_n ILIKE pattern`. */
  datatype Search = Search(pattern: string, columns: seq<string>)

  /** The `select` statement `list` builds. The search predicate and every
      filter predicate are ANDed together. */
  datatype QueryPlan = QueryPlan(
    projection: Projection,
    table: Table,
    join: Option<Join>,
    search: Option<Search>,
    filters: seq<Predicate>,
    order: Option<(string, Direction)>,
    limit: Option<int>,
    offset: Option<nat>)

  /** The `select ... where id_column == value` statement `get` builds. */
  datatype GetQuery = GetQuery(table: Table, column: string, value: Value)

  /** The database, as far as the resource sees it. */
  datatype Database = Database(fetch: QueryPlan -> seq<PostgreSQLSerializer.Row>,
                               fetchRow: GetQuery -> Option<PostgreSQLSerializer.Row>)

  /** The parameters of `list` after binding. */
  datatype ListRequest = ListRequest(
    page: RestycornTypes.UInt,
    orderBy: Option<string>,
    searchText: Option<string>,
    filter: Option<string>,
    count: bool)

  const SortMessage := "It's not allowed to sort by this field"
  const BadFilterMessage := "Bad filter expression"
  const FilterFieldMessage := "It's not allowed to filter by this field"
  const FilterOperatorMessage := "It's not allowed to filter by this field using this operator"

  /** The message for a value the column's type refuses; a column prints as
      `table.column`. */
  function BadValueMessage(t: Table, column: string): string {
    "Bad value for filter by field \"" + t.name + "." + column + "\""
  }

  /** `getattr(table.c, name)`. */
  function ColumnType(t: Table, name: string): Result<ColType, Exc> {
    if name in t.columns then Success(t.columns[name]) else Failure(AttributeError(name))
  }

  /** `column.type.python_type(s)`: `None` stands for the `ValueError` of `int()`. */
  function Convert(ct: ColType, s: string): (r: Option<Value>)
    ensures ct.StrCol? ==> r == Some(VStr(s))
    ensures ct.BoolCol? ==> r == Some(VBool(s != ""))
    ensures ct.IntCol? ==> (r.Some? <==> IntOfStr(s).Some?)
    ensures ct.IntCol? && r.Some? ==> r.value == VInt(IntOfStr(s).value)
  {
    match ct
    case StrCol => Some(VStr(s))
    case BoolCol => Some(VBool(s != ""))
    case IntCol => if IntOfStr(s).Some? then Some(VInt(IntOfStr(s).value)) else None
  }

  // ---------------------------------------------------------------------
  // Sort resolution

  /** `order_by` after the default and `strip()`; the default is the first
      allowed field, and there is none when that list is empty. */
  function SortText(r: Resource, orderBy: Option<string>): Result<string, Exc> {
    if orderBy.Some? then Success(Strip(orderBy.value))
    else if |r.orderByFields| == 0 then Failure(IndexError)
    else Success(Strip(r.orderByFields[0]))
  }

  /** The sort column and direction, or why there is none. */
  function ResolveSort(r: Resource, orderBy: Option<string>): Result<(string, Direction), Exc> {
    var o :- SortText(r, orderBy);
    var descending := StartsWith(o, "-");
    var name := if descending then o[1..] else o;
    if name !in r.orderByFields then Failure(ParamsValidation(SortMessage))
    else
      var _ :- ColumnType(r.table, name);
      Success((name, if descending then Descending else Ascending))
  }

  /** Sort resolution succeeds exactly when the stripped text, less one leading
      `-`, is an allowed field and a column; the `-` selects the descending
      direction, and the allow-list check comes before the column lookup. */
  lemma SortResolution(r: Resource, orderBy: string)
    ensures var o := Strip(orderBy);
      var descending := |o| > 0 && o[0] == '-';
      var name := if descending then o[1..] else o;
      && (name !in r.orderByFields ==> ResolveSort(r, Some(orderBy)) == Failure(ParamsValidation(SortMessage)))
      && (name in r.orderByFields && name !in r.table.columns ==>
            ResolveSort(r, Some(orderBy)) == Failure(AttributeError(name)))
      && (name in r.orderByFields && name in r.table.columns ==>
            ResolveSort(r, Some(orderBy)) == Success((name, if descending then Descending else Ascending)))
  {
    var o := Strip(orderBy);
    assert StartsWith(o, "-") <==> |o| > 0 && o[0] == '-' by {
      if |o| > 0 && o[0] == '-' {
        assert o[..1] == "-";
      }
    }
  }

  /** Without an explicit `order_by`, sorting is as if the first allowed
      field had been given; with no allowed field at all, `list` fails. */
  lemma DefaultSort(r: Resource)
    ensures |r.orderByFields| == 0 ==> ResolveSort(r, None) == Failure(IndexError)
    ensures |r.orderByFields| > 0 ==> ResolveSort(r, None) == ResolveSort(r, Some(r.orderByFields[0]))
  {
  }

  /** An allowed column named without surrounding spaces or a leading `-`
      sorts ascending by itself. */
  lemma PlainFieldSort(r: Resource, f: string)
    requires f in r.orderByFields && f in r.table.columns
    requires |f| > 0 && f[0] != '-' && !IsSpace(f[0]) && !IsSpace(f[|f| - 1])
    ensures ResolveSort(r, Some(f)) == Success((f, Ascending))
  {
    StripFacts(f);
    SortResolution(r, f);
  }

  // ---------------------------------------------------------------------
  // Search

  /** The escaping applied to search text, in the order the calls are made:
      `!` first, then `%`, `_` and `[`. */
  function Escape(s: string): string {
    ReplaceChar(ReplaceChar(ReplaceChar(ReplaceChar(s, '!', "!!"), '%', "!%"), '_', "!_"), '[', "![")
  }

  predicate IsSpecial(c: char) {
    c == '!' || c == '%' || c == '_' || c == '['
  }

  /** The escaping as a character-by-character map: each special character is
      prefixed with `!`, every other character is kept. */
  function EscapeEach(s: string): string {
    if s == [] then []
    else (if IsSpecial(s[0]) then ['!', s[0]] else [s[0]]) + EscapeEach(s[1..])
  }

  /** Reading `!` as "the next character is literal". */
  function Unescape(s: string): string
    decreases |s|
  {
    if s == [] then []
    else if s[0] == '!' && |s| >= 2 then [s[1]] + Unescape(s[2..])
    else [s[0]] + Unescape(s[1..])
  }

  /** The four successive replacements escape each special character once:
      the later replacements do not re-escape the `!` the earlier ones add. */
  lemma {:induction false} EscapeIsEscapeEach(s: string)
    ensures Escape(s) == EscapeEach(s)
  {
    if s != [] {
      var c := s[0];
      var rest := s[1..];
      assert s == [c] + rest;
      EscapeAppend([c], rest);
      EscapeIsEscapeEach(rest);
      assert EscapeEach(s) == (if IsSpecial(c) then ['!', c] else [c]) + EscapeEach(rest);
      EscapeOne(c);
    }
  }

  lemma EscapeAppend(a: string, b: string)
    ensures Escape(a + b) == Escape(a) + Escape(b)
  {
    var a1, b1 := ReplaceChar(a, '!', "!!"), ReplaceChar(b, '!', "!!");
    ReplaceCharAppend(a, b, '!', "!!");
    var a2, b2 := ReplaceChar(a1, '%', "!%"), ReplaceChar(b1, '%', "!%");
    ReplaceCharAppend(a1, b1, '%', "!%");
    var a3, b3 := ReplaceChar(a2, '_', "!_"), ReplaceChar(b2, '_', "!_");
    ReplaceCharAppend(a2, b2, '_', "!_");
    ReplaceCharAppend(a3, b3, '[', "![");
  }

  lemma EscapeOne(c: char)
    ensures Escape([c]) == if IsSpecial(c) then ['!', c] else [c]
  {
    var s1 := ReplaceChar([c], '!', "!!");
    ReplaceCharSingle(c, '!', "!!");
    var s2 := ReplaceChar(s1, '%', "!%");
    if c == '%' {
      ReplaceCharSingle(c, '%', "!%");
    } else {
      ReplaceCharAbsent(s1, '%', "!%");
    }
    var s3 := ReplaceChar(s2, '_', "!_");
    if c == '_' {
      ReplaceCharSingle(c, '_', "!_");
    } else {
      ReplaceCharAbsent(s2, '_', "!_");
    }
    if c == '[' {
      ReplaceCharSingle(c, '[', "![");
    } else {
      ReplaceCharAbsent(s3, '[', "![");
    }
  }

  lemma ReplaceCharSingle(c: char, x: char, rep: string)
    ensures ReplaceChar([c], x, rep) == if c == x then rep else [c]
  {
    assert [c][1..] == [];
  }

  lemma {:induction false} ReplaceCharAbsent(s: string, x: char, rep: string)
    requires x !in s
    ensures ReplaceChar(s, x, rep) == s
  {
    if s != [] {
      assert s[0] != x;
      ReplaceCharAbsent(s[1..], x, rep);
      assert s == [s[0]] + s[1..];
    }
  }

  lemma {:induction false} UnescapeEscapeEach(s: string)
    ensures Unescape(EscapeEach(s)) == s
  {
    if s != [] {
      var e := EscapeEach(s);
      UnescapeEscapeEach(s[1..]);
      if IsSpecial(s[0]) {
        assert e[2..] == EscapeEach(s[1..]);
      } else {
        assert e[1..] == EscapeEach(s[1..]);
      }
    }
  }

  /** `'%' + escaped(strip(text)) + '%'`. */
  function SearchPattern(text: string): (p: string)
    ensures |p| >= 2 && p[0] == '%' && p[|p| - 1] == '%'
  {
    "%" + Escape(Strip(text)) + "%"
  }

  /** Removing the wrapping `%` and un-escaping gives back the stripped text. */
  lemma SearchPatternRoundTrip(text: string)
    ensures var p := SearchPattern(text); Unescape(p[1..|p| - 1]) == Strip(text)
  {
    var p := SearchPattern(text);
    assert p[1..|p| - 1] == Escape(Strip(text));
    EscapeIsEscapeEach(Strip(text));
    UnescapeEscapeEach(Strip(text));
  }

  /** The first name that is not a column of the table. */
  function MissingColumn(t: Table, names: seq<string>): (m: Option<string>)
    ensures m.None? <==> forall k :: 0 <= k < |names| ==> names[k] in t.columns
    ensures m.Some? ==> m.value in names && m.value !in t.columns
  {
    if names == [] then None
    else if names[0] !in t.columns then Some(names[0])
    else MissingColumn(t, names[1..])
  }

  /** The search predicate: none for absent or empty text, else one `ilike`
      per search field, ORed together. */
  function SearchClause(r: Resource, text: Option<string>): Result<Option<Search>, Exc> {
    if text.None? || text.value == "" then Success(None)
    else match MissingColumn(r.table, r.searchByFields)
      case Some(c) => Failure(AttributeError(c))
      case None => Success(Some(Search(SearchPattern(text.value), r.searchByFields)))
  }

  // ---------------------------------------------------------------------
  // Filters

  predicate IsWordChar(c: char) {
    ('a' <= c <= 'z') || ('A' <= c <= 'Z') || ('0' <= c <= '9') || c == '_'
  }

  function OpOf(c: char): Option<CmpOp> {
    if c == '=' then Some(Eq) else if c == '>' then Some(Gt) else if c == '<' then Some(Lt) else None
  }

  function OpChar(op: CmpOp): char {
    match op
    case Eq => '='
    case Gt => '>'
    case Lt => '<'
  }

  /** The length of the run of word characters from `i` on. */
  function WordRun(s: string, i: nat): (n: nat)
    requires i <= |s|
    ensures i + n <= |s|
    ensures forall k :: i <= k < i + n ==> IsWordChar(s[k])
    ensures i + n == |s| || !IsWordChar(s[i + n])
    decreases |s| - i
  {
    if i < |s| && IsWordChar(s[i]) then 1 + WordRun(s, i + 1) else 0
  }

  /** The length of the run of whitespace from `i` on. */
  function SpaceRun(s: string, i: nat): (n: nat)
    requires i <= |s|
    ensures i + n <= |s|
    ensures forall k :: i <= k < i + n ==> IsSpace(s[k])
    ensures i + n == |s| || !IsSpace(s[i + n])
    decreases |s| - i
  {
    if i < |s| && IsSpace(s[i]) then 1 + SpaceRun(s, i + 1) else 0
  }

  /** A run of `n` word characters from `i` extends at least that far. */
  lemma {:induction false} WordRunAtLeast(s: string, i: nat, n: nat)
    requires i + n <= |s|
    requires forall k :: i <= k < i + n ==> IsWordChar(s[k])
    ensures WordRun(s, i) >= n
    decreases n
  {
    if n > 0 {
      WordRunAtLeast(s, i + 1, n - 1);
    }
  }

  /** A run of `n` whitespace characters from `i` followed by a character that
      is not whitespace is exactly the run `SpaceRun` finds. */
  lemma {:induction false} SpaceRunExact(s: string, i: nat, n: nat)
    requires i + n < |s|
    requires forall k :: i <= k < i + n ==> IsSpace(s[k])
    requires !IsSpace(s[i + n])
    ensures SpaceRun(s, i) == n
    decreases n
  {
    if n > 0 {
      SpaceRunExact(s, i + 1, n - 1);
    }
  }

  /** Whitespace, word characters and the three operators are disjoint classes. */
  lemma ClassesDisjoint(c: char)
    ensures IsSpace(c) ==> !IsWordChar(c)
    ensures OpOf(c).Some? ==> !IsWordChar(c) && !IsSpace(c)
  {
  }

  /** The pattern matches at the start of `s` with the field `s[..a]`,
      whitespace `s[a..b]`, the operator `s[b]`, whitespace `s[b + 1..c]` and
      the value `s[c..d]`. */
  predicate MatchesAt(s: string, a: nat, b: nat, c: nat, d: nat) {
    && 0 < a <= b < c < d <= |s|
    && (forall k :: 0 <= k < a ==> IsWordChar(s[k]))
    && (forall k :: a <= k < b ==> IsSpace(s[k]))
    && OpOf(s[b]).Some?
    && (forall k :: b < k < c ==> IsSpace(s[k]))
    && (forall k :: c <= k < d ==> IsWordChar(s[k]))
  }

  /** The positions `(a, b, c, d)` at which the regular expression engine
      matches `([a-zA-Z0-9_]+)\s*?([><=])\s*?([a-zA-Z0-9_]+)` at the start of
      `s`. The three groups and the spaces use disjoint character classes, so
      its backtracking settles on the longest field, all the spaces, and the
      longest value. */
  function Scan(s: string): (r: Option<(nat, nat, nat, nat)>)
    ensures r.Some? ==> r.value.0 <= r.value.1 < |s| && r.value.2 <= r.value.3 <= |s|
  {
    var a := WordRun(s, 0);
    if a == 0 then None
    else
      var b := a + SpaceRun(s, a);
      if b == |s| || OpOf(s[b]).None? then None
      else
        var c := b + 1 + SpaceRun(s, b + 1);
        var d := c + WordRun(s, c);
        if d == c then None else Some((a, b, c, d))
  }

  /** The groups of a successful match: field, operator, value. */
  datatype Clause = Clause(field: string, op: CmpOp, value: string)

  /** `re.match(...)` on a stripped clause and its three groups; trailing text
      after the value is ignored, as `re.match` anchors only the start. */
  function MatchClause(s: string): Option<Clause> {
    match Scan(s)
    case None => None
    case Some((a, b, c, d)) => Some(Clause(s[..a], OpOf(s[b]).value, s[c..d]))
  }

  /** A successful scan is a genuine match of the pattern, whose value runs as
      far as the word characters do. */
  lemma ScanSound(s: string)
    requires Scan(s).Some?
    ensures var (a, b, c, d) := Scan(s).value;
      MatchesAt(s, a, b, c, d) && (d == |s| || !IsWordChar(s[d]))
  {
  }

  /** A run of `n` word characters from `i` followed by the end or by a
      character that is not a word character is exactly the run `WordRun`
      finds. */
  lemma {:induction false} WordRunExact(s: string, i: nat, n: nat)
    requires i + n <= |s|
    requires forall k :: i <= k < i + n ==> IsWordChar(s[k])
    requires i + n == |s| || !IsWordChar(s[i + n])
    ensures WordRun(s, i) == n
    decreases n
  {
    if n > 0 {
      WordRunExact(s, i + 1, n - 1);
    }
  }

  /** The scan in terms of the runs it measures. */
  lemma ScanAt(s: string, a: nat, b: nat, c: nat)
    requires 0 < a <= b < |s| && b < c <= |s|
    requires WordRun(s, 0) == a && SpaceRun(s, a) == b - a && OpOf(s[b]).Some?
    requires SpaceRun(s, b + 1) == c - b - 1 && c < |s| && WordRun(s, c) > 0
    ensures Scan(s) == Some((a, b, c, c + WordRun(s, c)))
  {
  }

  /** Whenever the pattern can match at the start of `s`, the scan succeeds at
      the same field, spaces and operator, with a value extending the given
      one. So "Bad filter expression" is raised exactly when no match exists. */
  lemma ScanComplete(s: string, a: nat, b: nat, c: nat, d: nat)
    requires MatchesAt(s, a, b, c, d)
    ensures Scan(s).Some?
    ensures var (a', b', c', d') := Scan(s).value;
      a' == a && b' == b && c' == c && d' >= d
  {
    ClassesDisjoint(s[a]);
    ClassesDisjoint(s[b]);
    WordRunExact(s, 0, a);
    SpaceRunExact(s, a, b - a);
    ClassesDisjoint(s[c]);
    SpaceRunExact(s, b + 1, c - b - 1);
    WordRunAtLeast(s, c, d - c);
    ScanAt(s, a, b, c);
  }

  /** `("=", ">", "<")` as written in the descriptor. */
  function OpString(op: CmpOp): string {
    [OpChar(op)]
  }

  /** The checks on a matched clause: the field must be allowed, the operator
      allowed for it, the field a column, and the value of the column's type. */
  function CheckClause(r: Resource, cl: Clause): Result<Predicate, Exc> {
    if cl.field !in r.filterByFields then Failure(ParamsValidation(FilterFieldMessage))
    else if OpString(cl.op) !in r.filterByFields[cl.field] then Failure(ParamsValidation(FilterOperatorMessage))
    else
      var ct :- ColumnType(r.table, cl.field);
      match Convert(ct, cl.value)
      case None => Failure(ParamsValidation(BadValueMessage(r.table, cl.field)))
      case Some(v) => Success(Compare(cl.field, cl.op, v))
  }

  /** One `&&`-separated clause, turned into a typed predicate. */
  function CompileClause(r: Resource, expr: string): Result<Predicate, Exc> {
    match MatchClause(Strip(expr))
    case None => Failure(ParamsValidation(BadFilterMessage))
    case Some(cl) => CheckClause(r, cl)
  }

  /** The clauses in order; the first failing one decides the error. */
  function CompileFilters(r: Resource, clauses: seq<string>): Result<seq<Predicate>, Exc> {
    MapResults(c => CompileClause(r, c), clauses)
  }

  /** The clause texts of a filter: none for absent or empty text, else the
      pieces of `filter.split('&&')`. */
  function FilterTexts(filter: Option<string>): seq<string> {
    if filter.None? || filter.value == "" then [] else Split(filter.value, "&&", -1)
  }

  /** The filter predicates, one per clause text. */
  function FilterClauses(r: Resource, filter: Option<string>): Result<seq<Predicate>, Exc> {
    CompileFilters(r, FilterTexts(filter))
  }

  /** A matched clause compiles exactly when its field is allowed, its
      operator is allowed for that field, the field is a column and the
      value converts to the column's type; the predicate is then the clause's
      own field and operator with the converted value. */
  lemma ClauseAllowed(r: Resource, cl: Clause)
    ensures CheckClause(r, cl).Success? <==>
      && cl.field in r.filterByFields
      && OpString(cl.op) in r.filterByFields[cl.field]
      && cl.field in r.table.columns
      && Convert(r.table.columns[cl.field], cl.value).Some?
    ensures CheckClause(r, cl).Success? ==>
      CheckClause(r, cl).value == Compare(cl.field, cl.op, Convert(r.table.columns[cl.field], cl.value).value)
  {
  }

  /** Each check refuses with its own error, in the order they are made. */
  lemma ClauseRejected(r: Resource, cl: Clause)
    ensures cl.field !in r.filterByFields ==>
      CheckClause(r, cl) == Failure(ParamsValidation(FilterFieldMessage))
    ensures cl.field in r.filterByFields && OpString(cl.op) !in r.filterByFields[cl.field] ==>
      CheckClause(r, cl) == Failure(ParamsValidation(FilterOperatorMessage))
    ensures cl.field in r.filterByFields && OpString(cl.op) in r.filterByFields[cl.field] && cl.field !in r.table.columns ==>
      CheckClause(r, cl) == Failure(AttributeError(cl.field))
    ensures (cl.field in r.filterByFields && OpString(cl.op) in r.filterByFields[cl.field] && cl.field in r.table.columns &&
             Convert(r.table.columns[cl.field], cl.value).None?) ==>
      CheckClause(r, cl) == Failure(ParamsValidation(BadValueMessage(r.table, cl.field)))
  {
  }

  /** The predicate a clause text compiles to, when it compiles: its own
      field and operator with the converted value. */
  predicate CompiledAs(r: Resource, expr: string, p: Predicate) {
    && MatchClause(Strip(expr)).Some?
    && var cl := MatchClause(Strip(expr)).value;
    && cl.field in r.table.columns
    && Convert(r.table.columns[cl.field], cl.value).Some?
    && p == Compare(cl.field, cl.op, Convert(r.table.columns[cl.field], cl.value).value)
  }

  /** A clause text compiles exactly when it matches the pattern and its
      groups pass the checks, to the predicate `CompiledAs` describes; text
      that does not match is "Bad filter expression". */
  lemma CompileClauseSpec(r: Resource, expr: string)
    ensures MatchClause(Strip(expr)).None? ==> CompileClause(r, expr) == Failure(ParamsValidation(BadFilterMessage))
    ensures CompileClause(r, expr).Success? ==> CompiledAs(r, expr, CompileClause(r, expr).value)
    ensures MatchClause(Strip(expr)).Some? ==> CompileClause(r, expr) == CheckClause(r, MatchClause(Strip(expr)).value)
  {
    if MatchClause(Strip(expr)).Some? {
      ClauseAllowed(r, MatchClause(Strip(expr)).value);
    }
  }

  /** A sequence of clause texts compiles exactly when every clause does,
      and then predicate `k` is clause `k` compiled. */
  lemma CompileFiltersEach(r: Resource, clauses: seq<string>)
    ensures CompileFilters(r, clauses).Success? <==> forall k :: 0 <= k < |clauses| ==> CompileClause(r, clauses[k]).Success?
    ensures CompileFilters(r, clauses).Success? ==>
      && |CompileFilters(r, clauses).value| == |clauses|
      && forall k :: 0 <= k < |clauses| ==> CompiledAs(r, clauses[k], CompileFilters(r, clauses).value[k])
  {
    var f := c => CompileClause(r, c);
    MapResultsEach(f, clauses);
    assert forall k :: 0 <= k < |clauses| ==> f(clauses[k]) == CompileClause(r, clauses[k]);
    if CompileFilters(r, clauses).Success? {
      var ps := CompileFilters(r, clauses).value;
      forall k | 0 <= k < |clauses|
        ensures CompiledAs(r, clauses[k], ps[k])
      {
        assert CompileClause(r, clauses[k]) == Success(ps[k]);
        CompileClauseSpec(r, clauses[k]);
      }
    }
  }

  /** No filter, or empty filter text, gives no predicates. Any other text
      compiles exactly when every `&&`-separated clause does, and then
      predicate `k` is clause `k` compiled: on the clause's field, with its
      operator and its value converted by the column type. */
  lemma FiltersAllowed(r: Resource, filter: Option<string>)
    ensures filter.None? || filter.value == "" ==> FilterClauses(r, filter) == Success([])
    ensures filter.Some? && filter.value != "" ==> FilterTexts(filter) == Split(filter.value, "&&", -1)
    ensures FilterClauses(r, filter).Success? <==>
      forall k :: 0 <= k < |FilterTexts(filter)| ==> CompileClause(r, FilterTexts(filter)[k]).Success?
    ensures FilterClauses(r, filter).Success? ==>
      && |FilterClauses(r, filter).value| == |FilterTexts(filter)|
      && forall k :: 0 <= k < |FilterTexts(filter)| ==> CompiledAs(r, FilterTexts(filter)[k], FilterClauses(r, filter).value[k])
  {
    CompileFiltersEach(r, FilterTexts(filter));
  }

  /** The first clause that does not compile decides the error of the whole
      filter. */
  lemma FilterFirstFailure(r: Resource, filter: Option<string>, i: nat)
    requires i < |FilterTexts(filter)|
    requires CompileClause(r, FilterTexts(filter)[i]).Failure?
    requires forall k :: 0 <= k < i ==> CompileClause(r, FilterTexts(filter)[k]).Success?
    ensures FilterClauses(r, filter) == Failure(CompileClause(r, FilterTexts(filter)[i]).error)
  {
    MapResultsFirstFailure(c => CompileClause(r, c), FilterTexts(filter), i);
  }

  /** A resource declared without `filter_by` rejects every non-empty filter. */
  lemma NoFilterFieldsRejectAll(r: Resource, filter: string)
    requires r.filterByFields == map[] && filter != ""
    ensures FilterClauses(r, Some(filter)).Failure?
    ensures FilterClauses(r, Some(filter)).error.ParamsValidation?
  {
    var clauses := Split(filter, "&&", -1);
    assert |clauses| >= 1;
    assert CompileClause(r, clauses[0]).Failure?;
    MapResultsFirstFailure(c => CompileClause(r, c), clauses, 0);
  }

  // ---------------------------------------------------------------------
  // The whole plan

  /** `offset(page * page_size)` is only added for a non-zero page; the
      product is a `uint`, so a negative page size makes it raise. */
  function Offset(r: Resource, page: RestycornTypes.UInt): Result<Option<nat>, Exc> {
    if !r.paginated || page == 0 then Success(None)
    else
      var o :- RestycornTypes.Mul(page, r.pageSize);
      Success(Some(o))
  }

  /** The query `list` runs, or the exception it raises before running one. */
  function Compile(r: Resource, req: ListRequest): Result<QueryPlan, Exc> {
    var sort :- ResolveSort(r, req.orderBy);
    var search :- SearchClause(r, req.searchText);
    var filters :- FilterClauses(r, req.filter);
    var offset :- Offset(r, req.page);
    Success(QueryPlan(
      if req.count then CountAll else AllColumns,
      r.table, r.join, search, filters,
      if req.count then None else Some(sort),
      if r.paginated then Some(r.pageSize) else None,
      offset))
  }

  /** Shape of every compiled plan: counting drops the ordering and selects
      the count; a paginated resource limits to its page size and offsets by
      `page * page_size` exactly for a non-zero page; an unpaginated one does
      neither; search and filters are those of their own compilers. */
  lemma PlanShape(r: Resource, req: ListRequest)
    requires Compile(r, req).Success?
    ensures var plan := Compile(r, req).value;
      && (plan.projection == CountAll <==> req.count)
      && (plan.order.None? <==> req.count)
      && (plan.order.Some? ==> Success(plan.order.value) == ResolveSort(r, req.orderBy))
      && plan.table == r.table && plan.join == r.join
      && Success(plan.search) == SearchClause(r, req.searchText)
      && Success(plan.filters) == FilterClauses(r, req.filter)
      && (r.paginated ==> plan.limit == Some(r.pageSize))
      && (r.paginated && req.page != 0 ==> plan.offset == Some(req.page * r.pageSize))
      && (r.paginated && req.page == 0 ==> plan.offset.None?)
      && (!r.paginated ==> plan.limit.None? && plan.offset.None?)
  {
  }

  /** The sort field is checked before anything else: a disallowed field
      fails the whole call, with the sort message, whatever the other
      parameters say. */
  lemma DisallowedSortFails(r: Resource, req: ListRequest)
    requires SortText(r, req.orderBy).Success?
    requires var o := SortText(r, req.orderBy).value;
      (if StartsWith(o, "-") then o[1..] else o) !in r.orderByFields
    ensures Compile(r, req) == Failure(ParamsValidation(SortMessage))
  {
  }

  /** An absent or empty search text adds no predicate; any other text adds
      the escaped pattern against every search field. */
  lemma SearchPlan(r: Resource, text: Option<string>)
    ensures text.None? || text == Some("") ==> SearchClause(r, text) == Success(None)
    ensures text.Some? && text.value != "" && (forall k :: 0 <= k < |r.searchByFields| ==> r.searchByFields[k] in r.table.columns) ==>
      SearchClause(r, text) == Success(Some(Search(SearchPattern(text.value), r.searchByFields)))
  {
  }

  // ---------------------------------------------------------------------
  // Running the plan

  /** The value `list` returns for the rows the plan fetched: the count cell
      in count mode, otherwise one serialized dict per row. */
  function ListOutput(r: Resource, count: bool, rows: seq<PostgreSQLSerializer.Row>): Result<Output, Exc> {
    if count then
      if |rows| == 0 || |rows[0]| == 0 then Failure(IndexError)
      else Success(Pair(VList([]), [("count", rows[0][0].1)]))
    else
      var items :- SerializeRows(r.serializer, rows);
      Success(Plain(VList(items)))
  }

  /** `[serialize(item) for item in items]`. */
  function SerializeRows(fields: map<string, string>, rows: seq<PostgreSQLSerializer.Row>): Result<seq<Value>, Exc> {
    MapResults(row => RowDict(fields, row), rows)
  }

  /** One serialized row, as a dict value. */
  function RowDict(fields: map<string, string>, row: PostgreSQLSerializer.Row): Result<Value, Exc> {
    var d :- PostgreSQLSerializer.Serialized(fields, row);
    Success(VDict(d))
  }

  /** Serializing the rows succeeds exactly when every row serializes, giving
      one dict per row in order; otherwise it raises `SerializationError`. */
  lemma SerializeRowsEach(fields: map<string, string>, rows: seq<PostgreSQLSerializer.Row>)
    ensures var res := SerializeRows(fields, rows);
      && (res.Success? <==> forall k :: 0 <= k < |rows| ==> PostgreSQLSerializer.Serialized(fields, rows[k]).Success?)
      && (res.Failure? ==> res.error == SerializationError)
      && (res.Success? ==> |res.value| == |rows| && forall k :: 0 <= k < |rows| ==>
            res.value[k] == VDict(PostgreSQLSerializer.Serialized(fields, rows[k]).value))
  {
    var f := row => RowDict(fields, row);
    MapResultsEach(f, rows);
    if SerializeRows(fields, rows).Failure? {
      var k :| 0 <= k < |rows| && f(rows[k]) == Failure(SerializeRows(fields, rows).error);
    }
  }

  /** What `list` returns or raises. */
  function ListResult(r: Resource, db: Database, req: ListRequest): Result<Output, Exc> {
    var plan :- Compile(r, req);
    ListOutput(r, req.count, db.fetch(plan))
  }

  /** The search part of `list`: one `ilike` condition per search field,
      each field looked up as a column in turn. */
  method SearchConditions(r: Resource, text: Option<string>) returns (res: Result<Option<Search>, Exc>)
    ensures res == SearchClause(r, text)
  {
    if text.None? || text.value == "" {
      return Success(None);
    }
    var pattern := SearchPattern(text.value);
    var conditions: seq<string> := [];
    var i := 0;
    while i < |r.searchByFields|
      invariant 0 <= i <= |r.searchByFields|
      invariant conditions == r.searchByFields[..i]
      invariant MissingColumn(r.table, r.searchByFields) == MissingColumn(r.table, r.searchByFields[i..])
    {
      var name := r.searchByFields[i];
      assert r.searchByFields[i..][1..] == r.searchByFields[i + 1..];
      if name !in r.table.columns {
        return Failure(AttributeError(name));
      }
      conditions := conditions + [name];
      i := i + 1;
    }
    assert conditions == r.searchByFields;
    return Success(Some(Search(pattern, conditions)));
  }

  /** The filter loop of `list`: each clause checked and turned into one
      predicate in turn. */
  method CompileClauses(r: Resource, clauses: seq<string>) returns (res: Result<seq<Predicate>, Exc>)
    ensures res == CompileFilters(r, clauses)
  {
    var filters: seq<Predicate> := [];
    var i := 0;
    while i < |clauses|
      invariant 0 <= i <= |clauses|
      invariant CompileFilters(r, clauses[..i]) == Success(filters)
    {
      var clause := CompileClause(r, clauses[i]);
      if clause.Failure? {
        MapResultsStepFails(c => CompileClause(r, c), clauses, i);
        return Failure(clause.error);
      }
      MapResultsStep(c => CompileClause(r, c), clauses, i, filters, clause.value);
      filters := filters + [clause.value];
      i := i + 1;
    }
    assert clauses[..i] == clauses;
    return Success(filters);
  }

  /** The filter part of `list`: nothing for an absent or empty filter, else
      the clauses of `filter.split('&&')`. */
  method FilterPredicates(r: Resource, filter: Option<string>) returns (res: Result<seq<Predicate>, Exc>)
    ensures res == FilterClauses(r, filter)
  {
    if filter.None? || filter.value == "" {
      return Success([]);
    }
    res := CompileClauses(r, Split(filter.value, "&&", -1));
  }

  /** `[self.serializer.serialize(item) for item in items]`, one row at a time. */
  method SerializeAll(fields: map<string, string>, rows: seq<PostgreSQLSerializer.Row>) returns (res: Result<seq<Value>, Exc>)
    ensures res == SerializeRows(fields, rows)
  {
    var items: seq<Value> := [];
    var k := 0;
    while k < |rows|
      invariant 0 <= k <= |rows|
      invariant SerializeRows(fields, rows[..k]) == Success(items)
    {
      var d := PostgreSQLSerializer.Serialize(fields, rows[k]);
      if d.Failure? {
        MapResultsStepFails(row => RowDict(fields, row), rows, k);
        return Failure(d.error);
      }
      MapResultsStep(row => RowDict(fields, row), rows, k, items, VDict(d.value));
      items := items + [VDict(d.value)];
      k := k + 1;
    }
    assert rows[..k] == rows;
    return Success(items);
  }

  /** `list`, step by step as the source builds the statement: sort, search
      conditions, filter predicates, ordering unless counting, then paging;
      then the plan is run and its rows turned into the result. */
  method List(r: Resource, db: Database, req: ListRequest) returns (out: Result<Output, Exc>)
    ensures out == ListResult(r, db, req)
  {
    var sort := ResolveSort(r, req.orderBy);
    if sort.Failure? {
      return Failure(sort.error);
    }
    var search := SearchConditions(r, req.searchText);
    if search.Failure? {
      return Failure(search.error);
    }
    var filters := FilterPredicates(r, req.filter);
    if filters.Failure? {
      return Failure(filters.error);
    }
    var order: Option<(string, Direction)> := None;
    if !req.count {
      order := Some(sort.value);
    }
    var limit: Option<int> := None;
    var offset: Option<nat> := None;
    if r.paginated {
      limit := Some(r.pageSize);
      if req.page != 0 {
        var o := RestycornTypes.Mul(req.page, r.pageSize);
        if o.Failure? {
          return Failure(o.error);
        }
        offset := Some(o.value);
      }
    }
    var plan := QueryPlan(if req.count then CountAll else AllColumns, r.table, r.join,
                          search.value, filters.value, order, limit, offset);
    assert Compile(r, req) == Success(plan);

    var rows: seq<PostgreSQLSerializer.Row> := db.fetch(plan);
    if req.count {
      if |rows| == 0 || |rows[0]| == 0 {
        return Failure(IndexError);
      }
      return Success(Pair(VList([]), [("count", rows[0][0].1)]));
    }
    var items := SerializeAll(r.serializer, rows);
    if items.Failure? {
      return Failure(items.error);
    }
    out := Success(Plain(VList(items.value)));
  }

  // ---------------------------------------------------------------------
  // get and the mutators

  /** The statement `get` runs: the id coerced to the id column's type. */
  function GetPlan(r: Resource, itemId: string): (res: Result<GetQuery, Exc>)
    ensures r.idField !in r.table.columns ==> res == Failure(AttributeError(r.idField))
    ensures r.idField in r.table.columns ==>
      (res.Success? <==> Convert(r.table.columns[r.idField], itemId).Some?)
    ensures r.idField in r.table.columns && Convert(r.table.columns[r.idField], itemId).None? ==>
      res == Failure(ParamsValidation(BadValueMessage(r.table, r.idField)))
    ensures res.Success? ==> res.value.column == r.idField && res.value.table == r.table
    ensures res.Success? ==> res.value.value == Convert(r.table.columns[r.idField], itemId).value
  {
    var ct :- ColumnType(r.table, r.idField);
    match Convert(ct, itemId)
    case None => Failure(ParamsValidation(BadValueMessage(r.table, r.idField)))
    case Some(v) => Success(GetQuery(r.table, r.idField, v))
  }

  /** What `get` returns or raises. */
  function GetResult(r: Resource, db: Database, itemId: string): (res: Result<Output, Exc>)
    ensures r.idField in r.table.columns && r.table.columns[r.idField].IntCol? && IntOfStr(itemId).None? ==>
      res == Failure(ParamsValidation(BadValueMessage(r.table, r.idField)))
    ensures GetPlan(r, itemId).Success? && db.fetchRow(GetPlan(r, itemId).value).None? ==>
      res == Failure(ItemDoesNotExist)
    ensures GetPlan(r, itemId).Success? && db.fetchRow(GetPlan(r, itemId).value).Some? ==>
      var row := db.fetchRow(GetPlan(r, itemId).value).value;
      res == (match PostgreSQLSerializer.Serialized(r.serializer, row)
              case Success(d) => Success(Plain(VDict(d)))
              case Failure(e) => Failure(e))
  {
    var q :- GetPlan(r, itemId);
    match db.fetchRow(q)
    case None => Failure(ItemDoesNotExist)
    case Some(row) =>
      var d :- PostgreSQLSerializer.Serialized(r.serializer, row);
      Success(Plain(VDict(d)))
  }

  /** The declared parameters of each operation. */
  function Signature(op: Op): (sig: BaseResource.Signature)
    ensures WellFormed(sig)
  {
    match op
    case List => [
      Param("page", Some(KUInt), Some(VInt(0))),
      Param("order_by", Some(KStr), Some(VNone)),
      Param("search_text", Some(KStr), Some(VNone)),
      Param("filter", Some(KStr), Some(VNone)),
      Param("count", Some(KBool), Some(VBool(false)))]
    case Get => [Required("item_id", Some(KStr))]
    case _ => MutatorSignature(op)
  }

  /** An optional string argument as binding leaves it: a `str` or `None`. */
  function OptStr(v: Option<Value>): Result<Option<string>, Exc> {
    match v
    case Some(VStr(s)) => Success(Some(s))
    case Some(VNone) => Success(None)
    case _ => Failure(TypeError)
  }

  /** The bound arguments of `list`, read back into a request. */
  function ListArgs(args: Dict): Result<ListRequest, Exc> {
    var orderBy :- OptStr(Lookup(args, "order_by"));
    var searchText :- OptStr(Lookup(args, "search_text"));
    var filter :- OptStr(Lookup(args, "filter"));
    match (Lookup(args, "page"), Lookup(args, "count"))
    case (Some(VInt(page)), Some(VBool(count))) =>
      if page < 0 then Failure(TypeError) else Success(ListRequest(page, orderBy, searchText, filter, count))
    case _ => Failure(TypeError)
  }

  /** Calling an operation with bound arguments. Ill-typed arguments, which
      binding never produces, give `TypeError`. */
  function Invoke(r: Resource, db: Database, op: Op, args: Dict): (res: Result<Output, Exc>)
    ensures IsMutator(op) ==> res == Failure(MethodIsNotAllowed)
    ensures op.List? && ListArgs(args).Success? ==> res == ListResult(r, db, ListArgs(args).value)
    ensures op.Get? ==> forall s :: Lookup(args, "item_id") == Some(VStr(s)) ==> res == GetResult(r, db, s)
  {
    match op
    case List =>
      var req :- ListArgs(args);
      ListResult(r, db, req)
    case Get =>
      (match Lookup(args, "item_id")
       case Some(VStr(s)) => GetResult(r, db, s)
       case _ => Failure(TypeError))
    case _ => Failure(MethodIsNotAllowed)
  }
}
