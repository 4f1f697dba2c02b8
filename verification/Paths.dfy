/**
 Repository paths. git names a file by its segments joined with "/"; the code
 compares those strings, the model mostly the segments. The lemmas say that
 the two comparisons agree.
*/
module Paths {
  type Path = seq<string>

  /** A name git can give a file or directory, dot segments aside. */
  predicate Segment(s: string) {
    s != "" && '/' !in s && s != "." && s != ".."
  }

  predicate Clean(p: Path) {
    p != [] && forall i | 0 <= i < |p| :: Segment(p[i])
  }

  /** The path as the code holds it. */
  function Text(p: Path): string {
    if p == [] then "" else if |p| == 1 then p[0] else p[0] + "/" + Text(p[1..])
  }

  predicate HasPrefix(s: string, prefix: string) {
    prefix <= s
  }

  predicate HasSuffix(s: string, suffix: string) {
    |suffix| <= |s| && s[|s| - |suffix|..] == suffix
  }

  /** underDir: p is inside dir, at any depth. The empty path is ".", which no path's text starts with. */
  predicate Under(p: Path, dir: Path) {
    dir != [] && dir < p
  }

  function Base(p: Path): string
    requires p != []
  {
    p[|p| - 1]
  }

  function Dir(p: Path): Path
    requires p != []
  {
    p[..|p| - 1]
  }

  /** strings.TrimPrefix(p, dir + "/"). */
  function Rel(p: Path, dir: Path): Path
    requires Under(p, dir)
  {
    p[|dir|..]
  }

  lemma CleanTail(p: Path)
    requires Clean(p) && |p| > 1
    ensures Clean(p[1..])
  {
    forall i | 0 <= i < |p[1..]| ensures Segment(p[1..][i]) {
      assert p[1..][i] == p[i + 1];
    }
  }

  /** Texts that agree past a slash begin with the same segment. */
  lemma FirstSegment(a: string, x: string, b: string, y: string)
    requires '/' !in a && '/' !in b
    ensures a + "/" + x <= b + "/" + y ==> a == b
  {
    var r, s := a + "/" + x, b + "/" + y;
    if r <= s {
      assert forall i | 0 <= i < |a| :: s[i] == r[i] == a[i];
      assert s[|a|] == r[|a|] == '/' && s[|b|] == '/';
      assert forall i | 0 <= i < |b| :: s[i] == b[i];
      assert |a| == |b|;
    }
  }

  lemma InsideHasSlash(text: string, dir: string)
    ensures HasPrefix(text, dir + "/") ==> '/' in text
  {
    if HasPrefix(text, dir + "/") {
      assert text[|dir|] == (dir + "/")[|dir|];
    }
  }

  /** strings.HasPrefix(p, dir + "/") is being under dir. */
  lemma {:induction false} UnderIsPrefix(p: Path, dir: Path)
    requires Clean(p) && Clean(dir)
    ensures Under(p, dir) <==> HasPrefix(Text(p), Text(dir) + "/")
    decreases |p|
  {
    if |p| == 1 {
      InsideHasSlash(p[0], Text(dir));
    } else if |dir| == 1 {
      assert Text(p) == p[0] + "/" + Text(p[1..]) && Text(dir) + "/" == dir[0] + "/" + "";
      FirstSegment(dir[0], "", p[0], Text(p[1..]));
      assert Under(p, dir) <==> p[0] == dir[0];
    } else {
      var a, b := Text(p[1..]), Text(dir[1..]) + "/";
      assert Text(p) == p[0] + "/" + a && Text(dir) + "/" == dir[0] + "/" + b;
      FirstSegment(dir[0], b, p[0], a);
      if p[0] == dir[0] {
        CleanTail(p);
        CleanTail(dir);
        UnderIsPrefix(p[1..], dir[1..]);
        PrefixCancels(p[0] + "/", b, a);
        UnderTail(p, dir);
      }
    }
  }

  lemma PrefixCancels(c: string, b: string, a: string)
    ensures c + b <= c + a <==> b <= a
  {
    if c + b <= c + a {
      assert b == (c + b)[|c|..] == (c + a)[|c|..|c + b|] == a[..|b|];
    }
    if b <= a {
      assert a == b + a[|b|..];
      assert c + a == c + b + a[|b|..];
    }
  }

  lemma UnderTail(p: Path, dir: Path)
    requires |p| > 1 && |dir| > 1 && p[0] == dir[0]
    ensures Under(p, dir) <==> Under(p[1..], dir[1..])
  {
    assert p == [p[0]] + p[1..] && dir == [dir[0]] + dir[1..];
    if Under(p[1..], dir[1..]) {
      assert p[1..][..|dir| - 1] == dir[1..];
      assert p[..|dir|] == [p[0]] + p[1..][..|dir| - 1];
    }
    if Under(p, dir) {
      assert p[..|dir|] == dir;
      assert p[1..][..|dir| - 1] == dir[1..];
    }
  }

  lemma {:induction false} TextSnoc(p: Path, segment: string)
    requires p != []
    ensures Text(p + [segment]) == Text(p) + "/" + segment
  {
    assert (p + [segment])[0] == p[0] && (p + [segment])[1..] == p[1..] + [segment];
    if |p| == 1 {
      assert p[1..] + [segment] == [segment];
    } else {
      TextSnoc(p[1..], segment);
      assert Text(p) == p[0] + "/" + Text(p[1..]);
      assert p[0] + "/" + (Text(p[1..]) + "/" + segment) == p[0] + "/" + Text(p[1..]) + "/" + segment;
    }
  }

  lemma CleanSnoc(p: Path, segment: string)
    requires Clean(p) && Segment(segment)
    ensures Clean(p + [segment])
  {
  }

  /** A slash in a path's text ends the text of one of its directories. */
  lemma {:induction false} SlashEndsDir(p: Path, at: nat) returns (k: nat)
    requires Clean(p) && at < |Text(p)| && Text(p)[at] == '/'
    ensures 0 < k < |p| && Text(p[..k]) == Text(p)[..at]
    decreases |p|
  {
    assert |p| > 1;
    var rest := Text(p[1..]);
    assert Text(p) == p[0] + "/" + rest;
    if at == |p[0]| {
      k := 1;
      assert p[..1] == [p[0]];
    } else {
      assert forall i | 0 <= i < |p[0]| :: Text(p)[i] == p[0][i];
      CleanTail(p);
      var j := at - |p[0]| - 1;
      assert rest[j] == Text(p)[at];
      var m := SlashEndsDir(p[1..], j);
      k := m + 1;
      assert p[..k] == [p[0]] + p[1..][..m] && p[..k][1..] == p[1..][..m];
      assert Text(p[..k]) == p[0] + "/" + rest[..j];
      assert Text(p)[..at] == p[0] + "/" + rest[..j];
    }
  }

  /**
   A docs_dir written as `raw` selects the files under dir exactly when raw is
   dir's normal form, so "./docs" and "docs/" do not.
  */
  lemma RawPrefixIff(raw: string, dir: Path)
    requires Clean(dir)
    ensures (forall p | Clean(p) :: Under(p, dir) <==> HasPrefix(Text(p), raw + "/")) <==> raw == Text(dir)
  {
    if raw == Text(dir) {
      forall p | Clean(p) ensures Under(p, dir) <==> HasPrefix(Text(p), raw + "/") {
        UnderIsPrefix(p, dir);
      }
    } else {
      var p := Misplaced(raw, dir);
    }
  }

  /** A path that the prefix takes for the other side of dir. */
  lemma Misplaced(raw: string, dir: Path) returns (p: Path)
    requires Clean(dir) && raw != Text(dir)
    ensures Clean(p) && (Under(p, dir) <==> !HasPrefix(Text(p), raw + "/"))
  {
    var text := Text(dir);
    p := dir + ["a"];
    CleanSnoc(dir, "a");
    TextSnoc(dir, "a");
    if HasPrefix(Text(p), raw + "/") {
      assert Text(p)[|raw|] == (raw + "/")[|raw|] == '/' && Text(p)[..|raw|] == (raw + "/")[..|raw|] == raw;
      assert Text(p)[|text| + 1] == 'a' && Text(p)[..|text|] == text;
      assert |raw| < |text|;
      assert text[|raw|] == '/' && text[..|raw|] == raw;
      var k := SlashEndsDir(dir, |raw|);
      p := dir[..k] + ["a"];
      CleanSnoc(dir[..k], "a");
      TextSnoc(dir[..k], "a");
      assert Text(p) == raw + "/" + "a";
    }
  }

  lemma SlashIffDirs(p: Path)
    requires Clean(p)
    ensures '/' in Text(p) <==> |p| > 1
  {
    if |p| > 1 {
      assert Text(p)[|p[0]|] == '/';
    }
  }

  /** Different paths have different texts. */
  lemma {:induction false} TextInjective(p: Path, q: Path)
    requires Clean(p) && Clean(q) && Text(p) == Text(q)
    ensures p == q
    decreases |p|
  {
    SlashIffDirs(p);
    SlashIffDirs(q);
    if |p| > 1 {
      var a, b := Text(p[1..]), Text(q[1..]);
      assert Text(p) == p[0] + "/" + a && Text(q) == q[0] + "/" + b;
      FirstSegment(p[0], a, q[0], b);
      assert a == Text(p)[|p[0]| + 1..] && b == Text(q)[|q[0]| + 1..];
      CleanTail(p);
      CleanTail(q);
      TextInjective(p[1..], q[1..]);
      assert p == [p[0]] + p[1..] && q == [q[0]] + q[1..];
    }
  }
}
