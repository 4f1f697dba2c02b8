/**
 Scope lists and the space-separated string they are stored as
 (internal/oauth/authorize.go, server.go, token.go, verify.go).
*/
module Scopes {
  import opened Wrappers

  const PUBLIC_READ := "public:read"

  /** unicode.IsSpace: what strings.Fields splits around. */
  predicate IsSpace(c: char) {
    || c in "\t\n\r \U{000B}\U{000C}\U{0085}\U{00A0}\U{1680}\U{2028}\U{2029}\U{202F}\U{205F}\U{3000}"
    || '\U{2000}' <= c <= '\U{200A}'
  }

  predicate IsWord(w: string) {
    w != "" && NoSpace(w)
  }

  predicate NoSpace(w: string) {
    forall i | 0 <= i < |w| :: !IsSpace(w[i])
  }

  predicate AllWords(ws: seq<string>) {
    forall i | 0 <= i < |ws| :: IsWord(ws[i])
  }

  /** strings.Fields with `word` as the field read so far. */
  function FieldsFrom(word: string, s: string): (ws: seq<string>)
    requires NoSpace(word)
    ensures AllWords(ws)
    decreases |s|
  {
    var done := if word == "" then [] else [word];
    if s == "" then done
    else if IsSpace(s[0]) then done + FieldsFrom("", s[1..])
    else FieldsFrom(word + [s[0]], s[1..])
  }

  /** strings.Fields: the maximal runs of non-space characters. */
  function Fields(s: string): (ws: seq<string>)
    ensures AllWords(ws)
  {
    FieldsFrom("", s)
  }

  /** A space ends a field. With the next lemma this determines Fields. */
  lemma FieldsSplit(a: string, c: char, b: string)
    requires IsSpace(c)
    ensures Fields(a + [c] + b) == Fields(a) + Fields(b)
  {
    FieldsFromSplit("", a, c, b);
  }

  lemma {:induction false} FieldsFromSplit(word: string, a: string, c: char, b: string)
    requires NoSpace(word) && IsSpace(c)
    ensures FieldsFrom(word, a + [c] + b) == FieldsFrom(word, a) + Fields(b)
    decreases |a|
  {
    var s := a + [c] + b;
    if a == "" {
      assert s[0] == c && s[1..] == b;
    } else {
      assert s[0] == a[0] && s[1..] == a[1..] + [c] + b;
      FieldsFromSplit(if IsSpace(a[0]) then "" else word + [a[0]], a[1..], c, b);
    }
  }

  lemma FieldsOfWord(w: string)
    requires NoSpace(w)
    ensures Fields(w) == if w == "" then [] else [w]
  {
    FieldsReadsWord("", w, "");
    assert w + "" == w && "" + w == w;
  }

  /** joinScopes: the stored form of a scope list. */
  function JoinScopes(scopes: seq<string>): string {
    if scopes == [] then ""
    else if |scopes| == 1 then scopes[0]
    else scopes[0] + " " + JoinScopes(scopes[1..])
  }

  lemma {:induction false} FieldsReadsWord(word: string, w: string, rest: string)
    requires NoSpace(word) && NoSpace(w)
    ensures NoSpace(word + w)
    ensures FieldsFrom(word, w + rest) == FieldsFrom(word + w, rest)
    decreases |w|
  {
    if w == "" {
      assert w + rest == rest && word + w == word;
    } else {
      var s := w + rest;
      assert s[0] == w[0] && s[1..] == w[1..] + rest;
      assert NoSpace(w[1..]) by { forall i | 0 <= i < |w[1..]| ensures !IsSpace(w[1..][i]) { assert w[1..][i] == w[i + 1]; } }
      FieldsReadsWord(word + [w[0]], w[1..], rest);
      assert word + [w[0]] + w[1..] == word + w;
    }
  }

  /** What is stored for a scope list is read back as that list. */
  lemma {:induction false} JoinRoundTrip(scopes: seq<string>)
    requires AllWords(scopes)
    ensures Fields(JoinScopes(scopes)) == scopes
  {
    if scopes == [] {
    } else {
      var w := scopes[0];
      if |scopes| == 1 {
        FieldsReadsWord("", w, "");
        assert w + "" == w && "" + w == w;
      } else {
        var rest := JoinScopes(scopes[1..]);
        FieldsReadsWord("", w, " " + rest);
        assert JoinScopes(scopes) == w + (" " + rest) && "" + w == w;
        assert (" " + rest)[0] == ' ' && (" " + rest)[1..] == rest;
        JoinRoundTrip(scopes[1..]);
      }
    }
  }

  function Filter(scopes: seq<string>, keep: set<string>): (out: seq<string>)
    ensures forall sc :: sc in out <==> sc in scopes && sc in keep
    ensures AllWords(scopes) ==> AllWords(out)
  {
    if scopes == [] then []
    else (if scopes[0] in keep then [scopes[0]] else []) + Filter(scopes[1..], keep)
  }

  /** out is what is left of `from` when some places are struck. */
  ghost predicate Subsequence(out: seq<string>, from: seq<string>)
    decreases |from|
  {
    || out == []
    || (from != [] && (Subsequence(out, from[1..]) || (out[0] == from[0] && Subsequence(out[1..], from[1..]))))
  }

  /** out has the scopes of `from` that are in keep, as often and in the same order, and no other. */
  ghost predicate Selects(out: seq<string>, from: seq<string>, keep: set<string>) {
    Subsequence(out, from) && forall sc :: multiset(out)[sc] == if sc in keep then multiset(from)[sc] else 0
  }

  lemma {:induction false} SubsequenceLength(out: seq<string>, from: seq<string>)
    requires Subsequence(out, from)
    ensures |out| <= |from| && (|out| == |from| ==> out == from)
    decreases |from|
  {
    if out != [] {
      if Subsequence(out, from[1..]) {
        SubsequenceLength(out, from[1..]);
      } else {
        SubsequenceLength(out[1..], from[1..]);
        assert out == [out[0]] + out[1..] && from == [from[0]] + from[1..];
      }
    }
  }

  lemma SelectsIff(out: seq<string>, from: seq<string>, keep: set<string>, sc: string)
    requires Selects(out, from, keep)
    ensures sc in out <==> sc in from && sc in keep
  {
    assert sc in out <==> multiset(out)[sc] > 0;
    assert sc in from <==> multiset(from)[sc] > 0;
  }

  lemma SelectsAll(out: seq<string>, from: seq<string>, keep: set<string>)
    requires Selects(out, from, keep) && forall sc | sc in from :: sc in keep
    ensures out == from
  {
    assert forall sc :: multiset(out)[sc] == multiset(from)[sc];
    assert multiset(out) == multiset(from);
    assert |out| == |multiset(out)| == |multiset(from)| == |from|;
    SubsequenceLength(out, from);
  }

  lemma {:induction false} FilterCounts(scopes: seq<string>, keep: set<string>, sc: string)
    ensures multiset(Filter(scopes, keep))[sc] == if sc in keep then multiset(scopes)[sc] else 0
  {
    if scopes != [] {
      var first, rest := scopes[0], Filter(scopes[1..], keep);
      FilterCounts(scopes[1..], keep, sc);
      assert scopes == [first] + scopes[1..];
      assert Filter(scopes, keep) == (if first in keep then [first] else []) + rest;
    }
  }

  lemma {:induction false} FilterIsSubsequence(scopes: seq<string>, keep: set<string>)
    ensures Subsequence(Filter(scopes, keep), scopes)
  {
    if scopes != [] {
      FilterIsSubsequence(scopes[1..], keep);
      if scopes[0] in keep {
        var out := Filter(scopes, keep);
        assert out[0] == scopes[0] && out[1..] == Filter(scopes[1..], keep);
      } else {
        assert Filter(scopes, keep) == Filter(scopes[1..], keep);
      }
    }
  }

  lemma FilterSelects(scopes: seq<string>, keep: set<string>)
    ensures Selects(Filter(scopes, keep), scopes, keep)
  {
    FilterIsSubsequence(scopes, keep);
    forall sc ensures multiset(Filter(scopes, keep))[sc] == if sc in keep then multiset(scopes)[sc] else 0 {
      FilterCounts(scopes, keep, sc);
    }
    hide Filter, Subsequence;
  }

  function ToSet(scopes: seq<string>): (s: set<string>) {
    set sc | sc in scopes
  }

  /** Removing repeats, each scope at its first position. */
  function Dedup(out: seq<string>, scopes: seq<string>): (r: seq<string>)
    requires forall i, j | 0 <= i < j < |out| :: out[i] != out[j]
    ensures forall sc :: sc in r <==> sc in out || sc in scopes
    ensures forall i, j | 0 <= i < j < |r| :: r[i] != r[j]
    ensures AllWords(out) && AllWords(scopes) ==> AllWords(r)
    ensures |r| >= |out| && (out == [] && scopes != [] ==> r != [])
    decreases |scopes|
  {
    if scopes == [] then out
    else Dedup(if scopes[0] in out then out else out + [scopes[0]], scopes[1..])
  }

  lemma {:induction false} FilterAppend(a: seq<string>, b: seq<string>, keep: set<string>)
    ensures Filter(a + b, keep) == Filter(a, keep) + Filter(b, keep)
  {
    if a == [] {
      assert a + b == b;
    } else {
      assert (a + b)[0] == a[0] && (a + b)[1..] == a[1..] + b;
      FilterAppend(a[1..], b, keep);
    }
  }

  lemma {:induction false} DedupAppend(out: seq<string>, a: seq<string>, b: seq<string>)
    requires forall i, j | 0 <= i < j < |out| :: out[i] != out[j]
    ensures Dedup(out, a + b) == Dedup(Dedup(out, a), b)
    decreases |a|
  {
    if a == [] {
      assert a + b == b;
    } else {
      assert (a + b)[0] == a[0] && (a + b)[1..] == a[1..] + b;
      DedupAppend(if a[0] in out then out else out + [a[0]], a[1..], b);
    }
  }

  lemma DedupNext(scopes: seq<string>, i: nat)
    requires i < |scopes|
    ensures var out := Dedup([], scopes[..i]);
      Dedup([], scopes[..i + 1]) == if scopes[i] in out then out else out + [scopes[i]]
  {
    assert scopes[..i + 1] == scopes[..i] + [scopes[i]];
    DedupAppend([], scopes[..i], [scopes[i]]);
  }

  /** Where a scope first stands. */
  ghost function FirstAt(scopes: seq<string>, sc: string): (i: nat)
    requires sc in scopes
    ensures i < |scopes| && scopes[i] == sc && forall j | 0 <= j < i :: scopes[j] != sc
  {
    if scopes[0] == sc then 0 else 1 + FirstAt(scopes[1..], sc)
  }

  /** r has the given scopes once each, in the order in which they first stand. */
  ghost predicate ListsOnce(r: seq<string>, scopes: seq<string>) {
    && (forall sc :: sc in r <==> sc in scopes)
    && (forall i, j | 0 <= i < j < |r| :: FirstAt(scopes, r[i]) < FirstAt(scopes, r[j]))
  }

  lemma FirstAtFront(scopes: seq<string>, n: nat, sc: string)
    requires n <= |scopes| && sc in scopes[..n]
    ensures sc in scopes && FirstAt(scopes, sc) == FirstAt(scopes[..n], sc)
  {
    var i, j := FirstAt(scopes[..n], sc), FirstAt(scopes, sc);
    assert scopes[i] == scopes[..n][i];
    assert j < n ==> scopes[..n][j] == scopes[j];
  }

  lemma NextListsOnce(r: seq<string>, scopes: seq<string>, n: nat)
    requires n < |scopes| && ListsOnce(r, scopes[..n])
    ensures ListsOnce(if scopes[n] in r then r else r + [scopes[n]], scopes[..n + 1])
  {
    hide FirstAt;
    var last, front, next := scopes[n], scopes[..n], scopes[..n + 1];
    assert next[..n] == front && next[n] == last && next == front + [last];
    forall sc | sc in front ensures FirstAt(next, sc) == FirstAt(front, sc) {
      FirstAtFront(next, n, sc);
    }
    if last !in r {
      assert last !in front && last in next;
      assert forall j | 0 <= j < n :: next[j] == front[j] && front[j] in front;
    }
  }

  lemma {:induction false} DedupListsOnce(scopes: seq<string>, n: nat)
    requires n <= |scopes|
    ensures ListsOnce(Dedup([], scopes[..n]), scopes[..n])
  {
    if n > 0 {
      DedupListsOnce(scopes, n - 1);
      DedupListsNext(scopes, n - 1);
    }
    hide Dedup, AllWords, FirstAt;
  }

  lemma DedupListsNext(scopes: seq<string>, n: nat)
    requires n < |scopes| && ListsOnce(Dedup([], scopes[..n]), scopes[..n])
    ensures ListsOnce(Dedup([], scopes[..n + 1]), scopes[..n + 1])
  {
    hide ListsOnce, Dedup, AllWords, FirstAt;
    DedupNext(scopes, n);
    NextListsOnce(Dedup([], scopes[..n]), scopes, n);
  }

  // ---- the scope decisions of the flow ----

  /** The scopes an authorization asks for, or the scope it may not ask for. */
  function Requested(raw: string, grantable: set<string>): (r: Result<seq<string>, string>)
    ensures r.Ok? ==> AllWords(r.value) && r.value != []
    ensures r.Ok? ==> forall sc :: sc in r.value ==> sc == PUBLIC_READ || (sc in Fields(raw) && sc in grantable)
    ensures r.Err? ==> r.error in Fields(raw) && r.error !in grantable
  {
    var fields := Fields(raw);
    if fields == [] then
      assert IsWord(PUBLIC_READ);
      Ok([PUBLIC_READ])
    else
      match FirstOutside(fields, grantable)
      case Some(sc) => Err(sc)
      case None => Ok(Dedup([], fields))
  }

  /**
   Asking for nothing is asking for public:read. Scopes that are all grantable are the
   request's, once each in the order asked. Of others the first is refused.
  */
  lemma RequestedIs(raw: string, grantable: set<string>)
    ensures var fields, r := Fields(raw), Requested(raw, grantable);
      && (fields == [] ==> r == Ok([PUBLIC_READ]))
      && (fields != [] && (forall sc | sc in fields :: sc in grantable) ==> r.Ok? && ListsOnce(r.value, fields))
      && (forall sc | sc in fields && sc !in grantable :: r.Err?)
      && (r.Err? ==>
            exists i :: 0 <= i < |fields| && fields[i] == r.error && r.error !in grantable && Inside(fields, i, grantable))
  {
    DedupListsOnce(Fields(raw), |Fields(raw)|);
    assert Fields(raw)[..|Fields(raw)|] == Fields(raw);
    FirstOutsideIs(Fields(raw), grantable);
    hide ListsOnce, Dedup;
  }

  lemma {:induction false} FirstOutsideIs(scopes: seq<string>, grantable: set<string>)
    ensures var r := FirstOutside(scopes, grantable);
      r.Some? ==> exists i :: 0 <= i < |scopes| && scopes[i] == r.value && Inside(scopes, i, grantable)
  {
    if scopes != [] && scopes[0] in grantable && FirstOutside(scopes, grantable).Some? {
      FirstOutsideIs(scopes[1..], grantable);
      var i :| 0 <= i < |scopes[1..]| && scopes[1..][i] == FirstOutside(scopes[1..], grantable).value && Inside(scopes[1..], i, grantable);
      assert forall j | 0 < j <= i :: scopes[j] == scopes[1..][j - 1];
      assert scopes[i + 1] == scopes[1..][i] && Inside(scopes, i + 1, grantable);
    }
  }

  /** The first scope that is not grantable. */
  function FirstOutside(scopes: seq<string>, grantable: set<string>): (r: Option<string>)
    ensures r.None? <==> forall sc :: sc in scopes ==> sc in grantable
    ensures r.Some? ==> r.value in scopes && r.value !in grantable
  {
    if scopes == [] then None
    else if scopes[0] !in grantable then Some(scopes[0])
    else FirstOutside(scopes[1..], grantable)
  }

  /** The first n scopes are grantable. */
  predicate Inside(scopes: seq<string>, n: nat, grantable: set<string>)
    requires n <= |scopes|
  {
    forall i | 0 <= i < n :: scopes[i] in grantable
  }

  lemma InsideNext(scopes: seq<string>, n: nat, grantable: set<string>)
    requires n < |scopes| && Inside(scopes, n, grantable) && scopes[n] in grantable
    ensures Inside(scopes, n + 1, grantable)
  {
  }

  lemma {:induction false} FirstOutsideAt(scopes: seq<string>, grantable: set<string>, i: nat)
    requires i < |scopes| && scopes[i] !in grantable
    requires Inside(scopes, i, grantable)
    ensures FirstOutside(scopes, grantable) == Some(scopes[i])
  {
    if i > 0 {
      assert scopes[0] in grantable;
      FirstOutsideAt(scopes[1..], grantable, i - 1);
    }
  }

  /** requestedScopes. */
  method RequestedScopes(raw: string, grantable: set<string>) returns (r: Result<seq<string>, string>)
    ensures r == Requested(raw, grantable)
  {
    var fields := Fields(raw);
    if |fields| == 0 {
      return Ok([PUBLIC_READ]);
    }
    var out: seq<string> := [];
    assert out == Dedup([], fields[..0]);
    for i := 0 to |fields|
      invariant Inside(fields, i, grantable)
      invariant out == Dedup([], fields[..i])
    {
      var sc := fields[i];
      if sc !in grantable {
        FirstOutsideAt(fields, grantable, i);
        return Err(sc);
      }
      InsideNext(fields, i, grantable);
      DedupNext(fields, i);
      if sc !in out {
        out := out + [sc];
      }
    }
    assert fields[..|fields|] == fields;
    return Ok(out);
  }

  /** What a person grants: the requested scopes they hold; public:read is every principal's. */
  function Granted(requested: seq<string>, held: seq<string>): (out: seq<string>)
    ensures forall sc :: sc in out <==> sc in requested && (sc == PUBLIC_READ || sc in held)
    ensures AllWords(requested) ==> AllWords(out)
  {
    Filter(requested, ToSet(held) + {PUBLIC_READ})
  }

  /** The requested scopes the person holds, and public:read, as often and in the order requested. */
  lemma GrantedIs(requested: seq<string>, held: seq<string>)
    ensures Selects(Granted(requested, held), requested, ToSet(held) + {PUBLIC_READ})
  {
    FilterSelects(requested, ToSet(held) + {PUBLIC_READ});
  }

  /** intersect. */
  method Intersect(requested: seq<string>, held: seq<string>) returns (out: seq<string>)
    ensures out == Granted(requested, held)
  {
    out := [];
    ghost var keep := ToSet(held) + {PUBLIC_READ};
    for i := 0 to |requested|
      invariant out == Filter(requested[..i], keep)
    {
      var sc := requested[i];
      assert requested[..i + 1] == requested[..i] + [sc];
      FilterAppend(requested[..i], [sc], keep);
      if sc == PUBLIC_READ || sc in held {
        out := out + [sc];
      }
    }
    assert requested[..|requested|] == requested;
  }

  /** The granted scopes still grantable, public:read when none is. */
  function Current(granted: seq<string>, grantable: set<string>): (out: seq<string>)
    ensures out != []
    ensures forall sc :: sc in out ==> sc == PUBLIC_READ || (sc in granted && sc in grantable)
    ensures forall sc :: sc in granted && sc in grantable ==> sc in out
    ensures AllWords(granted) ==> AllWords(out)
  {
    var kept := Filter(granted, grantable);
    if kept == [] then assert IsWord(PUBLIC_READ); [PUBLIC_READ] else kept
  }

  /** out is what is left of a grant: its grantable scopes, in order, or public:read when there are none. */
  ghost predicate Remains(out: seq<string>, granted: seq<string>, grantable: set<string>) {
    if exists sc :: sc in granted && sc in grantable then Selects(out, granted, grantable) else out == [PUBLIC_READ]
  }

  lemma CurrentIs(granted: seq<string>, grantable: set<string>)
    ensures Remains(Current(granted, grantable), granted, grantable)
  {
    FilterSelects(granted, grantable);
    var kept := Filter(granted, grantable);
    if kept == [] {
      assert forall sc | sc in granted && sc in grantable :: sc in kept;
    } else {
      assert kept[0] in kept;
    }
    hide Selects;
  }

  /** currentScopes. */
  method CurrentScopes(granted: seq<string>, grantable: set<string>) returns (out: seq<string>)
    ensures out == Current(granted, grantable)
  {
    hide IsWord;
    out := [];
    for i := 0 to |granted|
      invariant out == Filter(granted[..i], grantable)
    {
      var sc := granted[i];
      assert granted[..i + 1] == granted[..i] + [sc];
      FilterAppend(granted[..i], [sc], grantable);
      if sc in grantable {
        out := out + [sc];
      }
    }
    assert granted[..|granted|] == granted;
    if |out| == 0 {
      out := out + [PUBLIC_READ];
    }
  }

  /** A rotated token's scopes, or None when the request asks for one it does not hold. */
  function Refreshed(granted: string, requested: string, grantable: set<string>): (r: Option<seq<string>>)
    ensures r.Some? ==> AllWords(r.value) && r.value != []
    ensures r.Some? ==> forall sc :: sc in r.value ==> sc == PUBLIC_READ || (sc in Fields(granted) && sc in grantable)
    ensures r.None? <==> exists sc :: sc in Fields(requested) && sc !in Current(Fields(granted), grantable)
    ensures r.Some? && Fields(requested) != [] ==> r.value == Fields(requested)
  {
    var scopes := Current(Fields(granted), grantable);
    var asked := Fields(requested);
    if asked == [] then Some(scopes)
    else if forall sc | sc in asked :: sc in scopes then Some(asked)
    else None
  }

  /**
   A rotation that names no scope has all that is left of the grant. One that
   names scopes has those, and is refused exactly when one of them is not left.
  */
  lemma RefreshedIs(granted: string, requested: string, grantable: set<string>)
    ensures var fields, asked, r := Fields(granted), Fields(requested), Refreshed(granted, requested, grantable);
      && (asked == [] ==> r.Some? && Remains(r.value, fields, grantable))
      && (asked != [] ==>
            if forall sc | sc in asked :: Left(sc, fields, grantable) then r == Some(asked) else r.None?)
  {
    CurrentIs(Fields(granted), grantable);
    forall sc ensures sc in Current(Fields(granted), grantable) <==> Left(sc, Fields(granted), grantable) {
      LeftIsCurrent(sc, Fields(granted), grantable);
    }
    hide Remains, Current, Left;
  }

  /** The scope is left of the grant. */
  ghost predicate Left(sc: string, granted: seq<string>, grantable: set<string>) {
    || (sc in granted && sc in grantable)
    || (sc == PUBLIC_READ && forall other | other in granted :: other !in grantable)
  }

  lemma LeftIsCurrent(sc: string, granted: seq<string>, grantable: set<string>)
    ensures sc in Current(granted, grantable) <==> Left(sc, granted, grantable)
  {
    var kept := Filter(granted, grantable);
    assert kept != [] ==> kept[0] in kept;
  }

  /** refreshScopes. */
  method RefreshScopes(granted: string, requested: string, grantable: set<string>) returns (r: Option<seq<string>>)
    ensures r == Refreshed(granted, requested, grantable)
  {
    var scopes := CurrentScopes(Fields(granted), grantable);
    var asked := Fields(requested);
    if |asked| == 0 {
      return Some(scopes);
    }
    for i := 0 to |asked|
      invariant forall j | 0 <= j < i :: asked[j] in scopes
    {
      if asked[i] !in scopes {
        return None;
      }
    }
    return Some(asked);
  }
}
