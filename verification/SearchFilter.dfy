/**
 The search filter expression (internal/search/search.go). A caller's values
 are quoted into it; a parser of the expression gets exactly those values back,
 whatever characters they hold, so none can widen the search.
*/
module SearchFilter {
  import opened Wrappers
  import opened Numbers

  datatype Params = Params(
    allowedRepoIDs: Option<seq<int>>, repo: string, typ: string, status: string, author: string, source: string)

  // ---- printing ----

  /** strings.ReplaceAll of one character. */
  function ReplaceChar(s: string, c: char, with: string): string {
    if s == "" then "" else (if s[0] == c then with else [s[0]]) + ReplaceChar(s[1..], c, with)
  }

  const BACKSLASH: char := '\\'
  const QUOTE: char := '\"'

  function FilterValue(v: string): string {
    ReplaceChar(ReplaceChar(v, BACKSLASH, "\\\\"), QUOTE, "\\\"")
  }

  /** A backslash before each backslash and each quote. */
  function Escape(v: string): string {
    if v == "" then ""
    else (if v[0] == BACKSLASH || v[0] == QUOTE then [BACKSLASH, v[0]] else [v[0]]) + Escape(v[1..])
  }

  lemma {:induction false} ReplaceCharAppend(a: string, b: string, c: char, with: string)
    ensures ReplaceChar(a + b, c, with) == ReplaceChar(a, c, with) + ReplaceChar(b, c, with)
  {
    if a == "" {
      assert a + b == b;
    } else {
      assert (a + b)[0] == a[0] && (a + b)[1..] == a[1..] + b;
      ReplaceCharAppend(a[1..], b, c, with);
    }
  }

  /** The two replacements, one after the other, escape each character once. */
  lemma {:induction false} TwoReplacementsEscape(v: string)
    ensures FilterValue(v) == Escape(v)
  {
    if v != "" {
      TwoReplacementsEscape(v[1..]);
      var first := if v[0] == BACKSLASH then "\\\\" else [v[0]];
      var rest := ReplaceChar(v[1..], BACKSLASH, "\\\\");
      ReplaceCharAppend(first, rest, QUOTE, "\\\"");
      OneCharEscape(v[0]);
    }
  }

  lemma OneCharEscape(c: char)
    ensures ReplaceChar(if c == BACKSLASH then "\\\\" else [c], QUOTE, "\\\"") ==
      if c == BACKSLASH || c == QUOTE then [BACKSLASH, c] else [c]
  {
    assert "\\\\"[1..] == "\\" && "\\"[1..] == "" && [c][1..] == "";
    assert ReplaceChar("\\", QUOTE, "\\\"") == "\\";
  }

  function Join(parts: seq<string>, sep: string): string {
    if parts == [] then "" else if |parts| == 1 then parts[0] else parts[0] + sep + Join(parts[1..], sep)
  }

  function Texts(ids: seq<int>): seq<string> {
    seq(|ids|, i requires 0 <= i < |ids| => FormatInt(ids[i]))
  }

  /** One condition of the expression. */
  datatype Clause = RepoIn(ids: seq<int>) | Equals(field: string, value: string)

  function Print(c: Clause): string {
    match c
    case RepoIn(ids) => "repo_id IN [" + Join(Texts(ids), ", ") + "]"
    case Equals(field, value) => field + " = \"" + FilterValue(value) + "\""
  }

  function PrintAll(clauses: seq<Clause>): string {
    if clauses == [] then "" else if |clauses| == 1 then Print(clauses[0]) else Print(clauses[0]) + " AND " + PrintAll(clauses[1..])
  }

  /** The conditions the parameters ask for. */
  function Facets(p: Params): seq<(string, string)> {
    [("repo", p.repo), ("type", p.typ), ("status", p.status), ("author", p.author), ("source", p.source)]
  }

  function FacetClauses(facets: seq<(string, string)>): seq<Clause> {
    if facets == [] then []
    else (if facets[0].1 == "" then [] else [Equals(facets[0].0, facets[0].1)]) + FacetClauses(facets[1..])
  }

  function Clauses(p: Params): seq<Clause> {
    if p.allowedRepoIDs == Some([]) then [RepoIn([-1])]
    else Scope(p.allowedRepoIDs) + FacetClauses(Facets(p))
  }

  // ---- the code ----

  function Prints(clauses: seq<Clause>): seq<string> {
    seq(|clauses|, i requires 0 <= i < |clauses| => Print(clauses[i]))
  }

  lemma {:induction false} JoinPrints(clauses: seq<Clause>)
    ensures Join(Prints(clauses), " AND ") == PrintAll(clauses)
  {
    if |clauses| > 1 {
      assert Prints(clauses)[1..] == Prints(clauses[1..]);
      JoinPrints(clauses[1..]);
    }
  }

  method AppendEq(parts: seq<string>, field: string, value: string, ghost clauses: seq<Clause>) returns (out: seq<string>)
    requires parts == Prints(clauses)
    ensures out == Prints(clauses + FacetClauses([(field, value)]))
  {
    assert [(field, value)][1..] == [];
    if value == "" {
      assert clauses + [] == clauses;
      return parts;
    }
    assert Prints(clauses + [Equals(field, value)]) == Prints(clauses) + [Print(Equals(field, value))];
    return parts + [field + " = \"" + FilterValue(value) + "\""];
  }

  lemma {:induction false} FacetClausesAppend(a: seq<(string, string)>, b: seq<(string, string)>)
    ensures FacetClauses(a + b) == FacetClauses(a) + FacetClauses(b)
  {
    if a == [] {
      assert a + b == b;
    } else {
      assert (a + b)[0] == a[0] && (a + b)[1..] == a[1..] + b;
      FacetClausesAppend(a[1..], b);
    }
  }

  lemma FacetsOneByOne(p: Params)
    ensures FacetClauses(Facets(p)) ==
      FacetClauses([("repo", p.repo)]) + FacetClauses([("type", p.typ)]) + FacetClauses([("status", p.status)])
      + FacetClauses([("author", p.author)]) + FacetClauses([("source", p.source)])
  {
    hide FacetClauses;
    var a, b, c, d, e := [("repo", p.repo)], [("type", p.typ)], [("status", p.status)], [("author", p.author)], [("source", p.source)];
    assert Facets(p) == a + b + c + d + e;
    FacetClausesAppend(a + b + c + d, e);
    FacetClausesAppend(a + b + c, d);
    FacetClausesAppend(a + b, c);
    FacetClausesAppend(a, b);
  }

  /** The clause of the authorized repositories, if there is one. */
  function Scope(allowed: Option<seq<int>>): seq<Clause> {
    if allowed.Some? then [RepoIn(allowed.value)] else []
  }

  method BuildFilter(p: Params) returns (filter: string)
    ensures filter == PrintAll(Clauses(p))
  {
    hide FacetClauses, Facets, Print, Join, PrintAll, Prints, Texts;
    var parts: seq<string> := [];
    if p.allowedRepoIDs.Some? {
      if |p.allowedRepoIDs.value| == 0 {
        NoRepo();
        return "repo_id IN [-1]";
      }
      var ids := FormatIDs(p.allowedRepoIDs.value);
      parts := parts + ["repo_id IN [" + Join(ids, ", ") + "]"];
    }
    ghost var c := Scope(p.allowedRepoIDs);
    ScopePrints(p.allowedRepoIDs);
    parts := AppendEq(parts, "repo", p.repo, c);
    c := c + FacetClauses([("repo", p.repo)]);
    parts := AppendEq(parts, "type", p.typ, c);
    c := c + FacetClauses([("type", p.typ)]);
    parts := AppendEq(parts, "status", p.status, c);
    c := c + FacetClauses([("status", p.status)]);
    parts := AppendEq(parts, "author", p.author, c);
    c := c + FacetClauses([("author", p.author)]);
    parts := AppendEq(parts, "source", p.source, c);
    c := c + FacetClauses([("source", p.source)]);
    FacetsOneByOne(p);
    assert c == Scope(p.allowedRepoIDs) + FacetClauses(Facets(p));
    JoinPrints(c);
    return Join(parts, " AND ");
  }

  lemma NoRepo()
    ensures PrintAll([RepoIn([-1])]) == "repo_id IN [-1]"
  {
    assert Decimal(1) == "1" && FormatInt(-1) == "-1";
    assert Texts([-1]) == ["-1"];
  }

  lemma ScopePrints(allowed: Option<seq<int>>)
    ensures Prints(Scope(allowed)) ==
      if allowed.Some? then ["repo_id IN [" + Join(Texts(allowed.value), ", ") + "]"] else []
  {
  }

  method FormatIDs(allowed: seq<int>) returns (ids: seq<string>)
    ensures ids == Texts(allowed)
  {
    ids := [];
    for i := 0 to |allowed|
      invariant ids == Texts(allowed[..i])
    {
      ids := ids + [FormatInt(allowed[i])];
    }
    assert allowed[..|allowed|] == allowed;
  }

  // ---- reading an expression back ----

  /** A quoted literal, after its opening quote: its value, and what follows it. */
  function ReadQuoted(s: string): (r: Option<(string, string)>)
    ensures r.Some? ==> |r.value.1| < |s|
  {
    if s == "" then None
    else if s[0] == QUOTE then Some(("", s[1..]))
    else
      var n := if s[0] == BACKSLASH then 2 else 1;
      if n > |s| then None
      else match ReadQuoted(s[n..])
        case None => None
        case Some((v, rest)) => Some(([s[n - 1]] + v, rest))
  }

  function DigitsIn(s: string): (n: nat)
    ensures n <= |s| && AllDigits(s[..n])
  {
    if s != "" && IsDigit(s[0]) then
      var n := DigitsIn(s[1..]);
      assert s[..n + 1] == [s[0]] + s[1..][..n];
      n + 1
    else 0
  }

  function ReadNat(s: string): (r: Option<(nat, string)>)
    ensures r.Some? ==> |r.value.1| < |s|
  {
    var n := DigitsIn(s);
    if n == 0 then None else Some((Value(s[..n]), s[n..]))
  }

  function ReadInt(s: string): (r: Option<(int, string)>)
    ensures r.Some? ==> |r.value.1| < |s|
  {
    if s != "" && s[0] == '-' then
      match ReadNat(s[1..])
      case None => None
      case Some((n, rest)) =>
        var m: int := n;
        Some((0 - m, rest))
    else ReadNat(s)
  }

  /** A list of ids, after its opening bracket. */
  function ReadInts(s: string): (r: Option<(seq<int>, string)>)
    ensures r.Some? ==> |r.value.1| < |s|
    decreases |s|
  {
    match ReadInt(s)
    case None => None
    case Some((n, rest)) =>
      if "]" <= rest then Some(([n], rest[1..]))
      else if !(", " <= rest) then None
      else match ReadInts(rest[2..])
        case None => None
        case Some((ns, end)) => Some(([n] + ns, end))
  }

  function WordLength(s: string): (n: nat)
    ensures n <= |s|
  {
    if s == "" || s[0] == ' ' then 0 else WordLength(s[1..]) + 1
  }

  const SCOPE := "repo_id IN ["
  const IS := " = \""
  const AND := " AND "

  function ReadClause(s: string): (r: Option<(Clause, string)>)
    ensures r.Some? ==> |r.value.1| < |s|
  {
    if SCOPE <= s then
      match ReadInts(s[|SCOPE|..])
      case None => None
      case Some((ids, rest)) => Some((RepoIn(ids), rest))
    else
      var n := WordLength(s);
      if !(IS <= s[n..]) then None
      else match ReadQuoted(s[n + |IS|..])
        case None => None
        case Some((v, rest)) => Some((Equals(s[..n], v), rest))
  }

  /** The clauses of an expression, or None when it is not one. */
  function Parse(s: string): Option<seq<Clause>>
    decreases |s|
  {
    if s == "" then Some([])
    else match ReadClause(s)
      case None => None
      case Some((c, rest)) =>
        if rest == "" then Some([c])
        else if !(AND < rest) then None
        else match Parse(rest[|AND|..])
          case None => None
          case Some(cs) => Some([c] + cs)
  }

  // ---- it reads what was printed ----

  lemma {:induction false} QuotedRoundTrip(v: string, rest: string)
    ensures ReadQuoted(Escape(v) + "\"" + rest) == Some((v, rest))
  {
    var s := Escape(v) + "\"" + rest;
    if v == "" {
      assert s == "\"" + rest && s[1..] == rest;
    } else {
      QuotedRoundTrip(v[1..], rest);
      var n := if v[0] == BACKSLASH || v[0] == QUOTE then 2 else 1;
      assert s[n..] == Escape(v[1..]) + "\"" + rest;
      assert s[n - 1] == v[0] && v == [v[0]] + v[1..];
    }
  }

  lemma {:induction false} DigitsOf(digits: string, rest: string)
    requires AllDigits(digits) && (rest == "" || !IsDigit(rest[0]))
    ensures DigitsIn(digits + rest) == |digits|
  {
    var s := digits + rest;
    if digits == "" {
      assert s == rest;
    } else {
      assert s[0] == digits[0] && s[1..] == digits[1..] + rest;
      DigitsOf(digits[1..], rest);
    }
  }

  lemma NatRoundTrip(n: nat, rest: string)
    requires rest == "" || !IsDigit(rest[0])
    ensures ReadNat(Decimal(n) + rest) == Some((n, rest))
  {
    var digits := Decimal(n);
    ValueOfDecimal(n);
    DigitsOf(digits, rest);
    hide Decimal, Value, DigitsIn;
    var s := digits + rest;
    assert s[..|digits|] == digits && s[|digits|..] == rest;
  }

  lemma IntRoundTrip(n: int, rest: string)
    requires rest == "" || !IsDigit(rest[0])
    ensures ReadInt(FormatInt(n) + rest) == Some((n, rest))
  {
    hide Decimal, ReadNat;
    if n < 0 {
      NatRoundTrip(-n, rest);
      var s := FormatInt(n) + rest;
      assert s[0] == '-' && s[1..] == Decimal(-n) + rest;
    } else {
      NatRoundTrip(n, rest);
      assert (Decimal(n) + rest)[0] == Decimal(n)[0];
    }
  }

  lemma {:induction false} IntsRoundTrip(ids: seq<int>, rest: string)
    requires ids != []
    ensures ReadInts(Join(Texts(ids), ", ") + "]" + rest) == Some((ids, rest))
  {
    hide ReadInt, FormatInt;
    var s := Join(Texts(ids), ", ") + "]" + rest;
    if |ids| == 1 {
      assert s == FormatInt(ids[0]) + ("]" + rest);
      IntRoundTrip(ids[0], "]" + rest);
      assert ("]" + rest)[1..] == rest && ids == [ids[0]];
    } else {
      var more := Join(Texts(ids[1..]), ", ") + "]" + rest;
      JoinTail(ids);
      assert s == FormatInt(ids[0]) + (", " + more);
      IntRoundTrip(ids[0], ", " + more);
      assert (", " + more)[2..] == more && ids == [ids[0]] + ids[1..];
      IntsRoundTrip(ids[1..], rest);
    }
  }

  lemma JoinTail(ids: seq<int>)
    requires |ids| > 1
    ensures Join(Texts(ids), ", ") == FormatInt(ids[0]) + ", " + Join(Texts(ids[1..]), ", ")
  {
    assert Texts(ids)[1..] == Texts(ids[1..]);
  }

  lemma {:induction false} WordOf(word: string, rest: string)
    requires ' ' !in word && (rest == "" || rest[0] == ' ')
    ensures WordLength(word + rest) == |word|
  {
    var s := word + rest;
    if word == "" {
      assert s == rest;
    } else {
      assert s[0] == word[0] && s[1..] == word[1..] + rest;
      WordOf(word[1..], rest);
    }
  }

  /** A clause the code prints: ids, or a field's name and a value. */
  predicate Printable(c: Clause) {
    match c
    case RepoIn(ids) => ids != []
    case Equals(field, _) => ' ' !in field
  }

  lemma ScopeHead(s: string)
    ensures SCOPE <= s ==> |s| > 8 && s[7] == ' ' && s[8] == 'I' && ' ' !in s[..7]
  {
    if SCOPE <= s {
      assert s[..7] == SCOPE[..7] == "repo_id" && s[7] == SCOPE[7] && s[8] == SCOPE[8];
    }
  }

  lemma NotScope(field: string, rest: string)
    requires ' ' !in field
    ensures !(SCOPE <= field + IS + rest)
  {
    var s := field + IS + rest;
    ScopeHead(s);
    assert s[|field|] == ' ' && s[|field| + 1] == '=';
    assert forall i | 0 <= i < |field| :: s[i] == field[i];
    assert |field| < 7 <= |s| ==> s[..7][|field|] == ' ';
  }

  lemma ScopeRoundTrip(ids: seq<int>, rest: string)
    requires ids != []
    ensures ReadClause(Print(RepoIn(ids)) + rest) == Some((RepoIn(ids), rest))
  {
    hide Join, Texts, ReadInts;
    var s, tail := Print(RepoIn(ids)) + rest, Join(Texts(ids), ", ") + "]" + rest;
    assert s == SCOPE + tail && s[|SCOPE|..] == tail;
    IntsRoundTrip(ids, rest);
  }

  lemma EqualsRoundTrip(field: string, value: string, rest: string)
    requires ' ' !in field
    ensures ReadClause(Print(Equals(field, value)) + rest) == Some((Equals(field, value), rest))
  {
    hide FilterValue, Escape, ReadQuoted, WordLength;
    TwoReplacementsEscape(value);
    var s, tail := Print(Equals(field, value)) + rest, Escape(value) + "\"" + rest;
    assert s == field + IS + tail && s == field + (IS + tail);
    NotScope(field, tail);
    WordOf(field, IS + tail);
    assert s[|field|..] == IS + tail && s[..|field|] == field && s[|field| + |IS|..] == tail;
    QuotedRoundTrip(value, rest);
  }

  lemma ClauseRoundTrip(c: Clause, rest: string)
    requires Printable(c)
    ensures ReadClause(Print(c) + rest) == Some((c, rest))
  {
    hide Print, ReadClause;
    match c
    case RepoIn(ids) => ScopeRoundTrip(ids, rest);
    case Equals(field, value) => EqualsRoundTrip(field, value, rest);
  }

  /** The expression for any list of clauses reads back as those clauses. */
  lemma {:induction false} ParsePrints(clauses: seq<Clause>)
    requires forall i | 0 <= i < |clauses| :: Printable(clauses[i])
    ensures Parse(PrintAll(clauses)) == Some(clauses)
  {
    if |clauses| == 1 {
      ClauseRoundTrip(clauses[0], "");
      assert Print(clauses[0]) + "" == Print(clauses[0]);
      PrintNonempty(clauses[0]);
      assert clauses == [clauses[0]];
    } else if |clauses| > 1 {
      var more := PrintAll(clauses[1..]);
      ParsePrints(clauses[1..]);
      ClauseRoundTrip(clauses[0], AND + more);
      PrintNonempty(clauses[0]);
      PrintNonempty(clauses[1]);
      assert PrintAll(clauses) == Print(clauses[0]) + (AND + more);
      assert (AND + more)[|AND|..] == more && clauses == [clauses[0]] + clauses[1..];
    }
  }

  lemma PrintNonempty(c: Clause)
    ensures Print(c) != ""
  {
  }

  lemma {:induction false} FacetsPrintable(facets: seq<(string, string)>)
    requires forall i | 0 <= i < |facets| :: ' ' !in facets[i].0
    ensures forall c | c in FacetClauses(facets) :: Printable(c)
  {
    if facets != [] {
      FacetsPrintable(facets[1..]);
    }
  }

  lemma ClausesPrintable(p: Params)
    ensures forall i | 0 <= i < |Clauses(p)| :: Printable(Clauses(p)[i])
  {
    FacetsPrintable(Facets(p));
    hide FacetClauses, Facets;
    forall c | c in Clauses(p) ensures Printable(c) {
    }
  }

  /** buildFilter's expression holds exactly the caller's repositories and values. */
  lemma FilterRoundTrip(p: Params)
    ensures Parse(PrintAll(Clauses(p))) == Some(Clauses(p))
  {
    ClausesPrintable(p);
    ParsePrints(Clauses(p));
  }

  // ---- what it admits ----

  /** An indexed record, as the filter sees it. */
  datatype Record = Record(repoID: int, field: string -> string)

  predicate Holds(c: Clause, rec: Record) {
    match c
    case RepoIn(ids) => rec.repoID in ids
    case Equals(field, value) => rec.field(field) == value
  }

  predicate AllHold(clauses: seq<Clause>, rec: Record) {
    forall i | 0 <= i < |clauses| :: Holds(clauses[i], rec)
  }

  lemma AllHoldAppend(a: seq<Clause>, b: seq<Clause>, rec: Record)
    ensures AllHold(a + b, rec) <==> AllHold(a, rec) && AllHold(b, rec)
  {
    var ab := a + b;
    if AllHold(ab, rec) {
      assert forall i | 0 <= i < |a| :: a[i] == ab[i];
      assert forall i | 0 <= i < |b| :: b[i] == ab[|a| + i];
    }
  }

  predicate Admits(filter: string, rec: Record) {
    Parse(filter).Some? && AllHold(Parse(filter).value, rec)
  }

  /** The record has every value asked for. */
  predicate HasFacets(facets: seq<(string, string)>, rec: Record) {
    forall i | 0 <= i < |facets| :: facets[i].1 == "" || rec.field(facets[i].0) == facets[i].1
  }

  lemma HasFacetsTail(facets: seq<(string, string)>, rec: Record)
    requires facets != []
    ensures HasFacets(facets, rec) <==>
      (facets[0].1 == "" || rec.field(facets[0].0) == facets[0].1) && HasFacets(facets[1..], rec)
  {
    assert forall i | 0 <= i < |facets[1..]| :: facets[1..][i] == facets[i + 1];
    assert forall i | 0 < i < |facets| :: facets[i] == facets[1..][i - 1];
  }

  lemma {:induction false} FacetsHold(facets: seq<(string, string)>, rec: Record)
    ensures AllHold(FacetClauses(facets), rec) <==> HasFacets(facets, rec)
  {
    if facets != [] {
      FacetsHold(facets[1..], rec);
      HasFacetsTail(facets, rec);
      AllHoldAppend(if facets[0].1 == "" then [] else [Equals(facets[0].0, facets[0].1)], FacetClauses(facets[1..]), rec);
    }
  }

  /**
   A search returns a repository's records only when the caller may read the
   repository (all of them when there is no scope, none when the scope is
   empty) and they have every requested value, whatever the values contain.
  */
  lemma FilterAdmitsOnlyAllowed(p: Params, rec: Record)
    requires rec.repoID > 0
    ensures Admits(PrintAll(Clauses(p)), rec) <==>
      (p.allowedRepoIDs.None? || rec.repoID in p.allowedRepoIDs.value)
      && (p.allowedRepoIDs == Some([]) || HasFacets(Facets(p), rec))
  {
    FilterRoundTrip(p);
    FacetsHold(Facets(p), rec);
    AllHoldAppend(Scope(p.allowedRepoIDs), FacetClauses(Facets(p)), rec);
    hide FacetClauses, Facets, HasFacets, Parse, PrintAll;
    if p.allowedRepoIDs == Some([]) {
      assert Clauses(p)[0] == RepoIn([-1]);
    } else if p.allowedRepoIDs.Some? {
      assert Scope(p.allowedRepoIDs)[0] == RepoIn(p.allowedRepoIDs.value);
    }
  }
}
