/** The two JavaScript string operations the gates rely on:
    `s.split(" ")` (single-space separator, empty pieces kept) and
    `s.startsWith(p)`. */
module JsString {
  import opened Http

  predicate StartsWith(s: string, p: string) {
    |p| <= |s| && s[..|p|] == p
  }

  /** `s.split(" ")`: the maximal space-free pieces between single spaces.
      The first piece is a prefix of `s` ended by the end of `s` or a space. */
  function Split(s: string): (r: seq<string>)
    ensures |r| >= 1
    ensures forall k :: 0 <= k < |r| ==> ' ' !in r[k]
    ensures |r| == 1 <==> ' ' !in s
    ensures StartsWith(s, r[0])
    ensures |r[0]| < |s| ==> s[|r[0]|] == ' '
    decreases |s|
  {
    if s == [] then [""]
    else
      var rest := Split(s[1..]);
      if s[0] == ' ' then [""] + rest
      else [[s[0]] + rest[0]] + rest[1..]
  }

  /** `parts.join(" ")`, the inverse of `Split`. */
  function Join(parts: seq<string>): string
    requires |parts| >= 1
  {
    if |parts| == 1 then parts[0] else parts[0] + " " + Join(parts[1..])
  }

  /** `s.split(" ")[i]`, which is `undefined` past the last piece. */
  function Piece(s: string, i: nat): (r: Option<string>)
    ensures r.Some? <==> i < |Split(s)|
    ensures r.Some? ==> ' ' !in r.value
  {
    var parts := Split(s);
    if i < |parts| then Some(parts[i]) else None
  }

  /** Joining the pieces with single spaces gives back the string. */
  lemma {:induction false} JoinSplit(s: string)
    ensures Join(Split(s)) == s
    decreases |s|
  {
    if s != [] {
      var rest := Split(s[1..]);
      JoinSplit(s[1..]);
      if s[0] == ' ' {
        assert Split(s) == [""] + rest;
        assert ([""] + rest)[1..] == rest;
      } else {
        var r := Split(s);
        assert r == [[s[0]] + rest[0]] + rest[1..];
        if |rest| == 1 {
          assert Join(r) == [s[0]] + rest[0];
        } else {
          assert r[1..] == rest[1..];
          assert Join(r) == [s[0]] + rest[0] + " " + Join(rest[1..]);
        }
        assert Join(r) == [s[0]] + s[1..];
      }
    }
  }

  /** A space-free string splits into itself alone. */
  lemma {:induction false} SplitNoSpace(w: string)
    requires ' ' !in w
    ensures Split(w) == [w]
  {
    // |Split(w)| == 1 comes from Split's contract; its one piece is a prefix
    // of w that is w itself, since it is not ended by a space.
    var r := Split(w);
    assert |r| == 1;
    assert r[0] == w[..|w|] == w;
  }

  /** A space-free word followed by a space splits off as the first piece. */
  lemma {:induction false} SplitPrefix(w: string, rest: string)
    requires ' ' !in w
    ensures Split(w + " " + rest) == [w] + Split(rest)
    decreases |w|
  {
    var s := w + " " + rest;
    if w == [] {
      assert s[0] == ' ' && s[1..] == rest;
    } else {
      assert s[0] == w[0] && w[0] != ' ';
      assert s[1..] == w[1..] + " " + rest;
      assert w[0] in w;
      assert ' ' !in w[1..] by {
        forall k | 0 <= k < |w[1..]| ensures w[1..][k] != ' ' {
          assert w[1..][k] == w[k + 1];
          assert w[k + 1] in w;
        }
      }
      SplitPrefix(w[1..], rest);
      assert [w[0]] + w[1..] == w;
    }
  }

  /** Splitting is injective on space-free pieces: it undoes `Join`. */
  lemma {:induction false} SplitJoin(parts: seq<string>)
    requires |parts| >= 1
    requires forall k :: 0 <= k < |parts| ==> ' ' !in parts[k]
    ensures Split(Join(parts)) == parts
    decreases |parts|
  {
    if |parts| == 1 {
      SplitNoSpace(parts[0]);
    } else {
      SplitPrefix(parts[0], Join(parts[1..]));
      SplitJoin(parts[1..]);
      assert [parts[0]] + parts[1..] == parts;
    }
  }

  /** The first piece is the longest space-free prefix. */
  lemma FirstPiece(t: string, rest: string)
    requires ' ' !in t
    requires rest == [] || rest[0] == ' '
    ensures Split(t + rest)[0] == t
  {
    var s := t + rest;
    var p := Split(s)[0];
    assert p == s[..|t|] == t;
  }
}
