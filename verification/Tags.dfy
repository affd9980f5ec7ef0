// Entity tags and If-None-Match lists as strings: splitting on commas, trimming, and the weak
// comparison of section 8.8.3.2 of RFC 9110 (the W/ prefix is ignored).
module Tags {

  // The white space str.strip() removes.
  predicate IsSpace(c: char) {
    var n := c as int;
    || 0x09 <= n <= 0x0d || 0x1c <= n <= 0x20 || n == 0x85 || n == 0xa0 || n == 0x1680
    || 0x2000 <= n <= 0x200a || n == 0x2028 || n == 0x2029 || n == 0x202f || n == 0x205f || n == 0x3000
  }

  // str.split(","): always at least one part.
  function Split(s: string): (parts: seq<string>)
    ensures |parts| >= 1
  {
    if s == "" then [""]
    else
      var rest := Split(s[1..]);
      if s[0] == ',' then [""] + rest else [[s[0]] + rest[0]] + rest[1..]
  }

  function TrimLeft(s: string): string {
    if s != "" && IsSpace(s[0]) then TrimLeft(s[1..]) else s
  }

  function TrimRight(s: string): string {
    if s != "" && IsSpace(s[|s| - 1]) then TrimRight(s[..|s| - 1]) else s
  }

  function Weak(s: string): string {
    if |s| >= 2 && s[..2] == "W/" then s[2..] else s
  }

  function Candidate(part: string): string { Weak(TrimRight(TrimLeft(part))) }

  function Candidates(parts: seq<string>): (tags: seq<string>)
    ensures |tags| == |parts|
  {
    if parts == [] then [] else [Candidate(parts[0])] + Candidates(parts[1..])
  }

  // The client's list as the code reads it.
  function ParseList(s: string): seq<string> { Candidates(Split(s)) }

  // Tags the server makes: quoted, so never a star, never weak, never padded; and without commas.
  predicate Plain(tag: string) {
    |tag| >= 2 && tag[0] == '"' && tag[|tag| - 1] == '"' && ',' !in tag
  }

  function Prepend(c: char, parts: seq<string>): seq<string>
    requires |parts| >= 1
  {
    if c == ',' then [""] + parts else [[c] + parts[0]] + parts[1..]
  }

  lemma SplitStep(s: string)
    requires s != ""
    ensures Split(s) == Prepend(s[0], Split(s[1..]))
  {
  }

  lemma PrependAppend(c: char, a: seq<string>, b: seq<string>)
    requires |a| >= 1
    ensures Prepend(c, a + b) == Prepend(c, a) + b
  {
    assert (a + b)[1..] == a[1..] + b;
  }

  lemma {:induction false} SplitAppend(a: string, b: string)
    ensures Split(a + "," + b) == Split(a) + Split(b)
  {
    var whole := a + "," + b;
    SplitStep(whole);
    if a == "" {
      assert whole[1..] == b;
    } else {
      hide Split;
      SplitAppend(a[1..], b);
      assert whole[1..] == a[1..] + "," + b;
      SplitStep(a);
      PrependAppend(a[0], Split(a[1..]), Split(b));
    }
  }

  lemma {:induction false} SplitPlain(s: string)
    requires ',' !in s
    ensures Split(s) == [s]
  {
    if s != "" {
      SplitPlain(s[1..]);
      assert s[0] != ',';
      assert [s[0]] + s[1..] == s;
    }
  }

  lemma {:induction false} CandidatesAppend(a: seq<string>, b: seq<string>)
    ensures Candidates(a + b) == Candidates(a) + Candidates(b)
  {
    if a == [] {
      assert a + b == b;
    } else {
      CandidatesAppend(a[1..], b);
      assert (a + b)[1..] == a[1..] + b;
    }
  }

  // Appending the server's own tag adds exactly that one candidate.
  lemma ParseAppend(list: string, tag: string)
    requires Plain(tag)
    ensures ParseList(list + "," + tag) == ParseList(list) + [tag]
  {
    SplitAppend(list, tag);
    SplitPlain(tag);
    CandidatesAppend(Split(list), [tag]);
    assert Candidate(tag) == tag;
    assert Candidates([tag]) == [tag];
  }

  // ---------- what a list holds, without the parser ----------

  predicate Blank(s: string) { forall i :: 0 <= i < |s| ==> IsSpace(s[i]) }

  // One spelling of `t` in a list: possibly weak, padded with white space, between commas.
  predicate Spelled(list: string, t: string, a: string, l: string, p: string, r: string, b: string) {
    && list == a + (l + (p + t) + r) + b && Blank(l) && Blank(r) && (p == "" || p == "W/")
    && (a == "" || a[|a| - 1] == ',') && (b == "" || b[0] == ',')
  }

  // `t` is listed, compared weakly (section 8.8.3.2 of RFC 9110).
  ghost predicate Lists(list: string, t: string) {
    exists a, l, p, r, b :: Spelled(list, t, a, l, p, r, b)
  }

  // What can be looked for: a star or an opaque tag without commas.
  predicate Clean(t: string) {
    && t != "" && ',' !in t && !IsSpace(t[0]) && !IsSpace(t[|t| - 1]) && !(|t| >= 2 && t[..2] == "W/")
  }

  lemma {:induction false} TrimLeftExactly(s: string) returns (l: string)
    ensures s == l + TrimLeft(s) && Blank(l)
    ensures TrimLeft(s) == "" || !IsSpace(TrimLeft(s)[0])
  {
    if s != "" && IsSpace(s[0]) {
      var rest := TrimLeftExactly(s[1..]);
      l := [s[0]] + rest;
      assert s == [s[0]] + s[1..];
    } else {
      l := "";
    }
  }

  lemma {:induction false} TrimRightExactly(s: string) returns (r: string)
    ensures s == TrimRight(s) + r && Blank(r)
    ensures TrimRight(s) == "" || !IsSpace(TrimRight(s)[|TrimRight(s)| - 1])
  {
    if s != "" && IsSpace(s[|s| - 1]) {
      var front, last := s[..|s| - 1], s[|s| - 1];
      var rest := TrimRightExactly(front);
      r := rest + [last];
      assert TrimRight(s) == TrimRight(front);
      hide TrimRight;
      assert s == front + [last];
      assert front + [last] == TrimRight(front) + (rest + [last]);
    } else {
      r := "";
      assert s + r == s;
    }
  }

  lemma {:induction false} TrimLeftDrops(l: string, y: string)
    requires Blank(l) && y != "" && !IsSpace(y[0])
    ensures TrimLeft(l + y) == y
  {
    if l == "" {
      assert l + y == y;
    } else {
      TrimLeftDrops(l[1..], y);
      assert (l + y)[1..] == l[1..] + y;
    }
  }

  lemma {:induction false} TrimRightDrops(y: string, r: string)
    requires Blank(r) && y != "" && !IsSpace(y[|y| - 1])
    ensures TrimRight(y + r) == y
  {
    if r == "" {
      assert y + r == y;
    } else {
      TrimRightDrops(y, r[..|r| - 1]);
      assert (y + r)[..|y + r| - 1] == y + r[..|r| - 1];
    }
  }

  // A part is read as `t` exactly when it spells `t`.
  lemma CandidateExactly(part: string, t: string)
    requires Clean(t)
    ensures Candidate(part) == t <==>
      exists l, p, r :: part == l + (p + t) + r && Blank(l) && Blank(r) && (p == "" || p == "W/")
  {
    if Candidate(part) == t {
      var l := TrimLeftExactly(part);
      var mid := TrimLeft(part);
      var r := TrimRightExactly(mid);
      var x := TrimRight(mid);
      var p := if x == t then "" else "W/";
      assert x == p + t;
      assert part == l + (p + t) + r;
    }
    forall l, p, r | part == l + (p + t) + r && Blank(l) && Blank(r) && (p == "" || p == "W/")
      ensures Candidate(part) == t
    {
      var x := p + t;
      assert !IsSpace('W');
      assert x[0] == (if p == "" then t[0] else 'W') && x[|x| - 1] == t[|t| - 1];
      assert part == l + (x + r);
      TrimLeftDrops(l, x + r);
      TrimRightDrops(x, r);
      assert p == "W/" ==> x[..2] == "W/" && x[2..] == t;
      assert p == "" ==> x == t;
    }
  }

  // Every part stands between commas.
  lemma {:induction false} SplitAt(s: string, i: nat) returns (a: string, b: string)
    requires i < |Split(s)|
    ensures s == a + Split(s)[i] + b && ',' !in Split(s)[i]
    ensures (i == 0 ==> a == "") && (i > 0 ==> a != "" && a[|a| - 1] == ',') && (b == "" || b[0] == ',')
  {
    if s == "" {
      a, b := "", "";
    } else if s[0] == ',' {
      assert s == "," + s[1..];
      if i == 0 {
        a, b := "", s;
      } else {
        a, b := SplitAt(s[1..], i - 1);
        assert Split(s)[i] == Split(s[1..])[i - 1];
        a := "," + a;
      }
    } else {
      assert s == [s[0]] + s[1..];
      a, b := SplitAt(s[1..], i);
      if i > 0 {
        assert Split(s)[i] == Split(s[1..])[i];
        a := [s[0]] + a;
      }
    }
  }

  // Whatever stands between commas is a part.
  lemma BeforeComma(part: string, b: string)
    requires ',' !in part && (b == "" || b[0] == ',')
    ensures part in Split(part + b)
  {
    hide Split;
    SplitPlain(part);
    if b == "" {
      assert part + b == part;
    } else {
      assert part + b == part + "," + b[1..];
      SplitAppend(part, b[1..]);
    }
  }

  lemma BetweenCommas(a: string, part: string, b: string)
    requires ',' !in part && (a == "" || a[|a| - 1] == ',') && (b == "" || b[0] == ',')
    ensures part in Split(a + part + b)
  {
    hide Split;
    BeforeComma(part, b);
    if a == "" {
      assert a + part + b == part + b;
    } else {
      var front := a[..|a| - 1];
      assert a == front + ",";
      assert a + part + b == front + "," + (part + b);
      SplitAppend(front, part + b);
    }
  }

  lemma {:induction false} CandidatesMember(parts: seq<string>, t: string)
    ensures t in Candidates(parts) <==> exists i :: 0 <= i < |parts| && Candidate(parts[i]) == t
  {
    if parts != [] {
      CandidatesMember(parts[1..], t);
      assert forall i :: 0 <= i < |parts| - 1 ==> parts[1..][i] == parts[i + 1];
      if exists i :: 0 <= i < |parts| && Candidate(parts[i]) == t {
        var i :| 0 <= i < |parts| && Candidate(parts[i]) == t;
        assert i > 0 ==> parts[1..][i - 1] == parts[i];
      }
    }
  }

  // What the parser finds is exactly what the list spells.
  lemma ParseExactly(list: string, t: string)
    requires Clean(t)
    ensures t in ParseList(list) <==> Lists(list, t)
  {
    hide Split, Candidate, Candidates;
    CandidatesMember(Split(list), t);
    if t in ParseList(list) {
      var i :| 0 <= i < |Split(list)| && Candidate(Split(list)[i]) == t;
      var part := Split(list)[i];
      var a, b := SplitAt(list, i);
      CandidateExactly(part, t);
      var l, p, r :| part == l + (p + t) + r && Blank(l) && Blank(r) && (p == "" || p == "W/");
      assert Spelled(list, t, a, l, p, r, b);
    }
    if Lists(list, t) {
      var a, l, p, r, b :| Spelled(list, t, a, l, p, r, b);
      var part := l + (p + t) + r;
      BlankHasNoComma(l);
      BlankHasNoComma(r);
      BetweenCommas(a, part, b);
      CandidateExactly(part, t);
    }
  }

  lemma BlankHasNoComma(s: string)
    requires Blank(s)
    ensures ',' !in s
  {
    assert !IsSpace(',');
  }

  lemma PlainIsClean(t: string)
    ensures Plain(t) ==> Clean(t)
    ensures Clean("*")
  {
    assert !IsSpace('"') && !IsSpace('*');
  }
}
