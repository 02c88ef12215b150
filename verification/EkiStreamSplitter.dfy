/** The EKI byte stream splitter: reassembles state documents from a TCP stream. */
module EkiStreamSplitter {

  const START: string := "<RobotState"
  const END: string := "</RobotState>"
  const MAX_DOC := 8192

  predicate At(s: string, tag: string, i: int) {
    0 <= i && i + |tag| <= |s| && forall j :: 0 <= j < |tag| ==> s[i + j] == tag[j]
  }

  ghost predicate First(s: string, tag: string, pos: nat, n: nat, i: int) {
    pos <= i && i + |tag| <= n <= |s| && At(s, tag, i) && forall k :: pos <= k < i ==> !At(s, tag, k)
  }

  /** The first occurrence of the tag that lies wholly inside s[pos..n], or -1. */
  ghost function Next(s: string, tag: string, pos: nat, n: nat): (i: int)
    requires pos <= n <= |s|
    ensures i == -1 || (pos <= i && i + |tag| <= n)
  {
    if exists i :: First(s, tag, pos, n, i) then var i :| First(s, tag, pos, n, i); i else -1
  }

  lemma NextIs(s: string, tag: string, pos: nat, n: nat, i: int)
    requires First(s, tag, pos, n, i)
    ensures Next(s, tag, pos, n) == i
  {
    var j := Next(s, tag, pos, n);
    assert First(s, tag, pos, n, j);
  }

  /** `Next` answers -1 exactly when the window holds no occurrence, and the least one otherwise. */
  lemma NextMeaning(s: string, tag: string, pos: nat, n: nat)
    requires pos <= n <= |s|
    ensures var i := Next(s, tag, pos, n);
            if i == -1 then forall k :: pos <= k && k + |tag| <= n ==> !At(s, tag, k)
            else First(s, tag, pos, n, i)
  {
    if k :| pos <= k && k + |tag| <= n && At(s, tag, k) {
      var j := pos;
      while !At(s, tag, j)
        invariant pos <= j <= k
        invariant forall h :: pos <= h < j ==> !At(s, tag, h)
        decreases k - j
      {
        j := j + 1;
      }
      assert First(s, tag, pos, n, j);
    }
  }

  /** One turn of the scanning loop: what it delivers, where the kept bytes start, and whether it goes on. */
  datatype Turn = Turn(more: bool, docs: seq<string>, pos: nat)

  ghost function TurnAt(s: string, pos: nat, n: nat): (t: Turn)
    requires pos <= n <= |s|
    ensures pos <= t.pos <= n && (t.more ==> pos < t.pos)
  {
    var start := Next(s, START, pos, n);
    if start == -1 then Turn(false, [], if n - pos >= |START| then n - (|START| - 1) else pos)
    else
      var end := Next(s, END, start, n);
      if end == -1 then
        if n - start > MAX_DOC then Turn(true, [], start + |START|) else Turn(false, [], start)
      else
        var fin := end + |END|;
        Turn(true, Span(s, start, fin), fin)
  }

  /** The span from a start tag to the end of the first end tag after it, dropped when oversized. */
  ghost function Span(s: string, start: nat, fin: nat): seq<string>
    requires start <= fin <= |s|
  {
    if fin - start <= MAX_DOC then [s[start..fin]] else []
  }

  datatype Result = Result(docs: seq<string>, rest: nat)

  ghost function Prepend(docs: seq<string>, r: Result): Result {
    Result(docs + r.docs, r.rest)
  }

  /** What one call delivers when the window s[pos..n] is its buffer, and where the kept bytes start. */
  ghost function Scan(s: string, pos: nat, n: nat): (r: Result)
    requires pos <= n <= |s|
    ensures pos <= r.rest <= n
    decreases n - pos
  {
    var t := TurnAt(s, pos, n);
    if t.more then Prepend(t.docs, Scan(s, t.pos, n)) else Result([], t.pos)
  }

  /** The calls of one connection whose stream is s, the i-th ending at position cuts[i]. */
  ghost predicate IsCutting(pos: nat, cuts: seq<nat>, n: nat)
    decreases |cuts|
  {
    if cuts == [] then pos == n else pos <= cuts[0] && IsCutting(cuts[0], cuts[1..], n)
  }

  /** What those calls deliver and keep, starting from a buffer that holds s[pos..done]. */
  ghost function ScanAll(s: string, pos: nat, done: nat, cuts: seq<nat>): (r: Result)
    requires pos <= done <= |s| && IsCutting(done, cuts, |s|)
    decreases |cuts|
  {
    if cuts == [] then Result([], pos)
    else
      CutInside(done, cuts, |s|);
      var r := Scan(s, pos, cuts[0]);
      Prepend(r.docs, ScanAll(s, r.rest, cuts[0], cuts[1..]))
  }

  lemma CutInside(pos: nat, cuts: seq<nat>, n: nat)
    requires IsCutting(pos, cuts, n)
    ensures pos <= n && (cuts != [] ==> pos <= cuts[0] <= n)
    decreases |cuts|
  {
    if cuts != [] { CutInside(cuts[0], cuts[1..], n); }
  }

  /** The buffer holds the end of the connection's stream, from position pos on. */
  class Splitter {
    var buffer: string
    ghost var stream: string
    ghost var pos: nat

    ghost predicate Valid()
      reads this
    {
      pos <= |stream| && buffer == stream[pos..]
    }

    constructor ()
      ensures Valid() && stream == ""
    {
      buffer, stream, pos := "", "", 0;
    }

    method Reset()
      modifies this
      ensures Valid() && stream == ""
    {
      buffer, stream, pos := "", "", 0;
    }

    /** `buffer_.erase(0, k)` */
    method Erase(k: nat)
      requires Valid() && k <= |buffer|
      modifies this
      ensures Valid() && stream == old(stream) && pos == old(pos) + k
    {
      Suffix(stream, pos, k);
      buffer := buffer[k..];
      pos := pos + k;
    }

    /** `buffer_.find(tag)` */
    method Find(tag: string) returns (i: int)
      requires Valid()
      ensures var at := Next(stream, tag, pos, |stream|);
              i == if at == -1 then -1 else at - pos
    {
      i := 0;
      while i + |tag| <= |buffer|
        invariant 0 <= i
        invariant forall k :: 0 <= k < i ==> !At(buffer, tag, k)
      {
        if At(buffer, tag, i) {
          NextIs(buffer, tag, 0, |buffer|, i);
          NextInSuffix(stream, tag, pos);
          return;
        }
        i := i + 1;
      }
      i := -1;
      NextInSuffix(stream, tag, pos);
    }

    /** The sink is modelled by the sequence of documents handed to it. */
    method Feed(data: string) returns (docs: seq<string>)
      requires Valid()
      modifies this
      ensures Valid() && stream == old(stream) + data
      ensures Result(docs, pos) == Scan(stream, old(pos), |stream|)
    {
      buffer := buffer + data;
      stream := stream + data;
      docs := [];
      ghost var all := Scan(stream, pos, |stream|);
      var more := true;
      while more
        invariant Valid() && stream == old(stream) + data
        invariant all == Prepend(docs, if more then Scan(stream, pos, |stream|) else Result([], pos))
        decreases more, |stream| - pos
      {
        ghost var before := docs;
        var delivered;
        more, delivered := ScanOnce();
        docs := docs + delivered;
        PrependPrepend(before, delivered, if more then Scan(stream, pos, |stream|) else Result([], pos));
      }
      assert docs + [] == docs;
    }

    /** The loop body of `Feed`; `more` is false where the original returns. */
    method ScanOnce() returns (more: bool, docs: seq<string>)
      requires Valid()
      modifies this
      ensures Valid() && stream == old(stream)
      ensures Turn(more, docs, pos) == TurnAt(stream, old(pos), |stream|)
    {
      var start := Find(START);
      if start == -1 {
        if |buffer| >= |START| {
          Erase(|buffer| - (|START| - 1));
        }
        return false, [];
      }
      if start > 0 {
        Erase(start);
      }
      var end := Find(END);
      if end == -1 {
        if |buffer| > MAX_DOC {
          Erase(|START|);
          return true, [];
        }
        return false, [];
      }
      var docLen := end + |END|;
      Suffix(stream, pos, docLen);
      docs := if docLen <= MAX_DOC then [buffer[..docLen]] else [];
      Erase(docLen);
      return true, docs;
    }
  }

  lemma PrependPrepend(a: seq<string>, b: seq<string>, r: Result)
    ensures Prepend(a, Prepend(b, r)) == Prepend(a + b, r)
    ensures a + [] == a
  {
    assert a + (b + r.docs) == (a + b) + r.docs;
  }

  lemma Suffix(s: string, a: nat, b: nat)
    requires a + b <= |s|
    ensures s[a..][b..] == s[a + b..] && s[a..][..b] == s[a..a + b]
  {
  }

  lemma NextInSuffix(s: string, tag: string, pos: nat)
    requires pos <= |s|
    ensures var i, j := Next(s, tag, pos, |s|), Next(s[pos..], tag, 0, |s| - pos);
            j == if i == -1 then -1 else i - pos
  {
    NextShift(s, tag, pos, pos, |s|);
    assert s[pos..|s|] == s[pos..];
  }

  // ----- Occurrences of the two tags -----

  /** Occurrences in a window of s[k..n] are the occurrences of s, shifted. */
  lemma AtShift(s: string, tag: string, k: nat, n: nat, i: int)
    requires k <= n <= |s| && k <= i && i + |tag| <= n
    ensures At(s[k..n], tag, i - k) <==> At(s, tag, i)
  {
    var u := s[k..n];
    if At(u, tag, i - k) {
      forall j | 0 <= j < |tag| ensures s[i + j] == tag[j] { assert u[i - k + j] == s[i + j]; }
    }
    if At(s, tag, i) {
      forall j | 0 <= j < |tag| ensures u[i - k + j] == tag[j] { assert u[i - k + j] == s[i + j]; }
    }
  }

  lemma NextShift(s: string, tag: string, k: nat, pos: nat, n: nat)
    requires k <= pos <= n <= |s|
    ensures var i, j := Next(s, tag, pos, n), Next(s[k..n], tag, pos - k, n - k);
            j == if i == -1 then -1 else i - k
  {
    var u := s[k..n];
    var i, j := Next(s, tag, pos, n), Next(u, tag, pos - k, n - k);
    NextMeaning(s, tag, pos, n);
    NextMeaning(u, tag, pos - k, n - k);
    forall h | pos <= h && h + |tag| <= n
      ensures At(u, tag, h - k) <==> At(s, tag, h)
    {
      AtShift(s, tag, k, n, h);
    }
    if i != -1 { assert At(u, tag, i - k); }
    if j != -1 { assert At(s, tag, j + k); }
  }

  lemma {:induction false} TagChars(s: string, i: int, j: int)
    ensures At(s, START, i) ==> s[i] == '<' && s[i + 1] == 'R' && (i < j < i + |START| ==> s[j] != '<')
    ensures At(s, END, i) ==> s[i] == '<' && s[i + 1] == '/' && (i < j < i + |END| ==> s[j] != '<')
  {
    if At(s, START, i) {
      assert s[i + 0] == START[0] && s[i + 1] == START[1];
      if i < j < i + |START| { assert s[i + (j - i)] == START[j - i]; }
    }
    if At(s, END, i) {
      assert s[i + 0] == END[0] && s[i + 1] == END[1];
      if i < j < i + |END| { assert s[i + (j - i)] == END[j - i]; }
    }
  }

  /** No two tag occurrences overlap: every tag holds '<' at its first position only. */
  lemma Disjoint(s: string, p: int, q: int)
    ensures At(s, START, p) && At(s, START, q) && p < q ==> p + |START| <= q
    ensures At(s, START, p) && At(s, END, q) ==> p + |START| <= q || q + |END| <= p
  {
    TagChars(s, p, q);
    TagChars(s, q, p);
  }
}
