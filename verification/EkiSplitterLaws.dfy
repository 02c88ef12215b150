/** What the splitter delivers, over every byte stream and every way of cutting it into calls. */
module EkiSplitterLaws {
  import opened EkiStreamSplitter

  // ----- Cutting does not matter, exactly when no span is long and resumable -----

  /**
   * The span s[start..fin], a start tag to the first end tag after it, is resumable when some cut makes
   * the splitter give up on its start tag and pick up a later start tag inside the span.
   */
  ghost predicate Resumable(s: string, start: nat, fin: nat) {
    && fin - start > MAX_DOC + 1
    && !At(s, START, fin - (MAX_DOC + 1))
    && exists q :: fin - MAX_DOC <= q && q + |START| <= fin && At(s, START, q)
  }

  /** No span that a single call walks over in s[pos..n] is resumable. */
  ghost predicate Clean(s: string, pos: nat, n: nat)
    requires pos <= n <= |s|
    decreases n - pos
  {
    var start := Next(s, START, pos, n);
    start == -1 ||
    var end := Next(s, END, start, n);
    end == -1 || (!Resumable(s, start, end + |END|) && Clean(s, end + |END|, n))
  }

  /** Every finished span is short enough to be a document. */
  ghost predicate Short(s: string, pos: nat, n: nat)
    requires pos <= n <= |s|
    decreases n - pos
  {
    var start := Next(s, START, pos, n);
    start == -1 ||
    var end := Next(s, END, start, n);
    end == -1 || (end + |END| - start <= MAX_DOC && Short(s, end + |END|, n))
  }

  /** What follows a dropped span lets a call keep the same bytes, whether it starts at the span's end or inside it. */
  ghost predicate Followed(s: string, fin: nat, n: nat)
    requires fin <= n <= |s|
  {
    Next(s, START, fin, n) != -1 || n - fin >= |START| - 1
  }

  /**
   * A span that a single call walks over leaves nothing behind under any cutting: it is a document, or a start tag lies
   * exactly MAX_DOC + 1 bytes before its end, or a start tag or enough other bytes follow.
   */
  ghost predicate LeavesNothing(s: string, start: nat, fin: nat, n: nat)
    requires start <= fin <= n <= |s|
  {
    fin - start <= MAX_DOC || At(s, START, fin - (MAX_DOC + 1)) || Followed(s, fin, n)
  }

  /** Clean, and no span leaves anything behind. */
  ghost predicate Tidy(s: string, pos: nat, n: nat)
    requires pos <= n <= |s|
    decreases n - pos
  {
    var start := Next(s, START, pos, n);
    start == -1 ||
    var end := Next(s, END, start, n);
    end == -1 ||
    (!Resumable(s, start, end + |END|) && LeavesNothing(s, start, end + |END|, n) && Tidy(s, end + |END|, n))
  }

  /** A longer window has the same first occurrence. */
  lemma NextGrow(s: string, tag: string, pos: nat, n: nat, m: nat)
    requires pos <= n <= m <= |s| && Next(s, tag, pos, n) != -1
    ensures Next(s, tag, pos, m) == Next(s, tag, pos, n)
  {
    NextMeaning(s, tag, pos, n);
    NextIs(s, tag, pos, m, Next(s, tag, pos, n));
  }

  /** Dropping bytes in front of every occurrence keeps the first occurrence. */
  lemma NextFrom(s: string, tag: string, pos: nat, from: nat, n: nat)
    requires pos <= from <= n <= |s|
    requires forall k :: pos <= k < from && k + |tag| <= n ==> !At(s, tag, k)
    ensures Next(s, tag, from, n) == Next(s, tag, pos, n)
  {
    NextMeaning(s, tag, pos, n);
    NextMeaning(s, tag, from, n);
    var i, j := Next(s, tag, pos, n), Next(s, tag, from, n);
    if i != -1 { NextIs(s, tag, from, n, i); }
  }

  ghost predicate NoStart(s: string, pos: nat, n: nat) {
    forall q :: pos <= q && q + |START| <= n ==> !At(s, START, q)
  }

  /** A window without end tag delivers nothing, and keeps the first start tag that is near enough. */
  lemma {:induction false} NoEnd(s: string, pos: nat, n: nat)
    requires pos <= n <= |s|
    requires forall k :: pos <= k && k + |END| <= n ==> !At(s, END, k)
    ensures Scan(s, pos, n).docs == [] && Clean(s, pos, n) && Tidy(s, pos, n)
    ensures forall q :: pos <= q && n - q <= MAX_DOC && At(s, START, q) ==> Scan(s, pos, n).rest <= q
    ensures (exists q :: pos <= q && n - q <= MAX_DOC && q + |START| <= n && At(s, START, q)) ==>
              var r := Scan(s, pos, n).rest; n - r <= MAX_DOC && At(s, START, r)
    ensures (forall q :: pos <= q && n - q <= MAX_DOC && q + |START| <= n ==> !At(s, START, q)) ==>
              NoStart(s, Scan(s, pos, n).rest, n)
    decreases n - pos
  {
    NextMeaning(s, START, pos, n);
    var start := Next(s, START, pos, n);
    if start != -1 {
      NextMeaning(s, END, start, n);
      if n - start > MAX_DOC {
        NoEnd(s, start + |START|, n);
        forall q | pos <= q && n - q <= MAX_DOC && At(s, START, q) ensures start + |START| <= q {
          Disjoint(s, start, q);
        }
      }
    }
  }

  /** How one turn over a finished span unfolds. */
  lemma AtSpan(s: string, pos: nat, n: nat, start: nat, fin: nat)
    requires pos <= n <= |s| && Next(s, START, pos, n) == start
    requires Next(s, END, start, n) + |END| == fin >= |END|
    ensures start <= fin <= n && Scan(s, pos, n) == Prepend(Span(s, start, fin), Scan(s, fin, n))
    ensures Clean(s, pos, n) <==> !Resumable(s, start, fin) && Clean(s, fin, n)
    ensures Short(s, pos, n) <==> fin - start <= MAX_DOC && Short(s, fin, n)
    ensures Tidy(s, pos, n) <==>
              !Resumable(s, start, fin) && LeavesNothing(s, start, fin, n) && Tidy(s, fin, n)
  {
  }

  /** Start tags of a span ending at fin that lie before fin - MAX_DOC only lead to a dropped document. */
  lemma SkipSpan(s: string, pos: nat, fin: nat, m: nat)
    requires pos <= fin <= m <= |s| && |END| <= fin
    requires At(s, END, fin - |END|) && forall k :: pos <= k < fin - |END| ==> !At(s, END, k)
    requires || (forall q :: fin - MAX_DOC <= q && q + |START| <= fin ==> !At(s, START, q))
             || At(s, START, fin - (MAX_DOC + 1))
    requires At(s, START, fin - (MAX_DOC + 1)) ==> pos <= fin - (MAX_DOC + 1)
    ensures Scan(s, pos, m).docs == Scan(s, fin, m).docs
    ensures Clean(s, fin, m) ==> Clean(s, pos, m)
    ensures Tidy(s, fin, m) && (Followed(s, fin, m) || At(s, START, fin - (MAX_DOC + 1))) ==>
              Tidy(s, pos, m) && Scan(s, pos, m).rest == Scan(s, fin, m).rest
  {
    hide Scan, Clean, Tidy, Short, At;
    NextMeaning(s, START, pos, m);
    NextMeaning(s, START, fin, m);
    var start := Next(s, START, pos, m);
    if start == -1 {
      SameStart(s, pos, fin, m);
      SameStart(s, fin, pos, m);
      AtNoStart(s, pos, m);
      AtNoStart(s, fin, m);
    } else if start < fin {
      Disjoint(s, start, fin - |END|);
      NextIs(s, END, start, m, fin - |END|);
      AtSpan(s, pos, m, start, fin);
      assert fin - start > MAX_DOC;
      assert [] + Scan(s, fin, m).docs == Scan(s, fin, m).docs;
    } else {
      NextIs(s, START, fin, m, start);
      SameStart(s, pos, fin, m);
      SameStart(s, fin, pos, m);
    }
  }

  ghost predicate CutsAt(s: string, pos: nat, n: nat, m: nat)
    requires pos <= n <= m <= |s|
  {
    var a := Scan(s, pos, n);
    && Clean(s, a.rest, m) && Scan(s, pos, m).docs == a.docs + Scan(s, a.rest, m).docs
    && (Tidy(s, pos, m) ==> Tidy(s, a.rest, m) && Scan(s, pos, m).rest == Scan(s, a.rest, m).rest)
  }

  /** Stopping at n and going on from what was kept delivers the same documents as one call up to m. */
  lemma {:induction false} Cut(s: string, pos: nat, n: nat, m: nat)
    requires pos <= n <= m <= |s| && Clean(s, pos, m)
    ensures CutsAt(s, pos, n, m)
    decreases n - pos
  {
    var start, a := Next(s, START, pos, n), Scan(s, pos, n);
    NextMeaning(s, START, pos, n);
    if start == -1 {
      NextFrom(s, START, pos, a.rest, m);
      SameStart(s, pos, a.rest, m);
    } else {
      NextGrow(s, START, pos, n, m);
      var end := Next(s, END, start, n);
      if end != -1 {
        CutAtSpan(s, pos, n, m, start, end + |END|);
      } else if n - start <= MAX_DOC {
        NextIs(s, START, start, m, start);
        SameStart(s, pos, start, m);
      } else {
        CutInSpan(s, pos, n, m, start);
      }
    }
  }

  /** Two positions with the same next start tag lead to the same documents. */
  lemma SameStart(s: string, pos: nat, from: nat, m: nat)
    requires pos <= m <= |s| && from <= m && Next(s, START, pos, m) == Next(s, START, from, m)
    ensures Scan(s, pos, m).docs == [] + Scan(s, from, m).docs
    ensures Clean(s, pos, m) ==> Clean(s, from, m)
    ensures Tidy(s, pos, m) ==> Tidy(s, from, m)
    ensures Next(s, START, pos, m) != -1 ==> Scan(s, pos, m).rest == Scan(s, from, m).rest
  {
    assert Next(s, START, pos, m) != -1 ==> TurnAt(s, pos, m) == TurnAt(s, from, m);
    var d := Scan(s, from, m).docs;
    assert [] + d == d;
  }

  lemma AtNoStart(s: string, pos: nat, n: nat)
    requires pos <= n <= |s| && Next(s, START, pos, n) == -1
    ensures Tidy(s, pos, n)
    ensures Scan(s, pos, n).rest == if n - pos >= |START| then n - (|START| - 1) else pos
  {
  }

  /** How giving up on an unfinished start tag unfolds. */
  lemma AtDrop(s: string, pos: nat, n: nat, start: nat)
    requires pos <= n <= |s| && Next(s, START, pos, n) == start
    requires Next(s, END, start, n) == -1 && n - start > MAX_DOC
    ensures Scan(s, pos, n) == Scan(s, start + |START|, n)
  {
    var b := Scan(s, start + |START|, n);
    assert [] + b.docs == b.docs;
  }

  lemma {:induction false} CutAtSpan(s: string, pos: nat, n: nat, m: nat, start: nat, fin: nat)
    requires pos <= n <= m <= |s| && Clean(s, pos, m)
    requires Next(s, START, pos, n) == start == Next(s, START, pos, m)
    requires Next(s, END, start, n) + |END| == fin >= |END|
    ensures CutsAt(s, pos, n, m)
    decreases n - pos, 0
  {
    hide Scan, Clean, Tidy, Short, At;
    NextGrow(s, END, start, n, m);
    AtSpan(s, pos, n, start, fin);
    AtSpan(s, pos, m, start, fin);
    Cut(s, fin, n, m);
    var b := Scan(s, fin, n);
    PrependPrepend(Span(s, start, fin), b.docs, Scan(s, b.rest, m));
  }

  lemma {:induction false} CutInSpan(s: string, pos: nat, n: nat, m: nat, start: nat)
    requires pos <= n <= m <= |s| && Clean(s, pos, m)
    requires Next(s, START, pos, n) == start == Next(s, START, pos, m)
    requires Next(s, END, start, n) == -1 && n - start > MAX_DOC
    ensures CutsAt(s, pos, n, m)
    decreases n - pos, 0
  {
    hide Scan, Clean, Tidy, Short, At;
    AtDrop(s, pos, n, start);
    NextMeaning(s, END, start, n);
    var end := Next(s, END, start, m);
    if end == -1 {
      AtDrop(s, pos, m, start);
      NextMeaning(s, END, start, m);
      NoEnd(s, start + |START|, m);
      Cut(s, start + |START|, n, m);
    } else {
      CutInFinished(s, pos, n, m, start, end + |END|);
    }
  }

  lemma CutInFinished(s: string, pos: nat, n: nat, m: nat, start: nat, fin: nat)
    requires pos <= n <= m <= |s| && Clean(s, pos, m)
    requires Next(s, START, pos, n) == start == Next(s, START, pos, m)
    requires Next(s, END, start, n) == -1 && n - start > MAX_DOC
    requires Next(s, END, start, m) + |END| == fin >= |END|
    ensures CutsAt(s, pos, n, m)
  {
    hide Scan, Clean, Tidy, Short, At;
    AtSpan(s, pos, m, start, fin);
    AtDrop(s, pos, n, start);
    NextMeaning(s, END, start, n);
    NextMeaning(s, END, start, m);
    assert n < fin;
    SkipInside(s, start, n, m, fin) by {
      NextMeaning(s, START, pos, n);
    }
    assert Span(s, start, fin) == [];
    var later := Scan(s, fin, m).docs;
    assert [] + later == later;
  }

  lemma SkipInside(s: string, start: nat, n: nat, m: nat, fin: nat)
    requires start + |START| <= n <= m <= |s| && At(s, START, start) && |END| <= fin <= m
    requires First(s, END, start, m, fin - |END|) && n < fin && n - start > MAX_DOC
    requires !Resumable(s, start, fin) && Clean(s, fin, m)
    ensures var b := Scan(s, start + |START|, n);
            && b.docs == [] && Scan(s, b.rest, m).docs == Scan(s, fin, m).docs && Clean(s, b.rest, m)
            && (Tidy(s, fin, m) && LeavesNothing(s, start, fin, m) ==>
                  Tidy(s, b.rest, m) && Scan(s, b.rest, m).rest == Scan(s, fin, m).rest)
  {
    hide Scan, Clean, Tidy, Short, At;
    NoEnd(s, start + |START|, n);
    var b := Scan(s, start + |START|, n).rest;
    var q := fin - (MAX_DOC + 1);
    if At(s, START, q) { Disjoint(s, start, q); }
    SkipSpan(s, b, fin, m);
  }


  /** A resumable span loses a document in one call that a cut just before its last byte delivers. */
  lemma {:induction false} CutLoses(s: string, pos: nat, n: nat) returns (k: nat)
    requires pos <= n <= |s| && !Clean(s, pos, n)
    ensures pos <= k <= n
    ensures var a := Scan(s, pos, k); |Scan(s, pos, n).docs| < |a.docs| + |Scan(s, a.rest, n).docs|
    decreases n - pos
  {
    hide Scan, Short, At;
    var start := Next(s, START, pos, n);
    var fin := Next(s, END, start, n) + |END|;
    AtSpan(s, pos, n, start, fin);
    if Resumable(s, start, fin) {
      k := fin - 1;
      CutInResumable(s, pos, n, start, fin);
    } else {
      k := CutLoses(s, fin, n);
      NextMeaning(s, START, pos, n);
      NextMeaning(s, END, start, n);
      NextIs(s, START, pos, k, start);
      NextIs(s, END, start, k, fin - |END|);
      AtSpan(s, pos, k, start, fin);
    }
  }

  lemma CutInResumable(s: string, pos: nat, n: nat, start: nat, fin: nat)
    requires pos <= n <= |s| && Next(s, START, pos, n) == start
    requires Next(s, END, start, n) + |END| == fin >= |END| && Resumable(s, start, fin)
    ensures var a := Scan(s, pos, fin - 1); |Scan(s, pos, n).docs| < |a.docs| + |Scan(s, a.rest, n).docs|
  {
    hide Scan, Clean, Tidy, Short, At;
    AtSpan(s, pos, n, start, fin);
    ResumesInside(s, pos, n, start, fin);
    var r := Scan(s, pos, fin - 1).rest;
    AtSpan(s, r, n, r, fin);
    assert Span(s, start, fin) == [] && |Span(s, r, fin)| == 1;
  }

  /** Cut before its last byte, a resumable span leaves the splitter at a start tag near enough to its end. */
  lemma ResumesInside(s: string, pos: nat, n: nat, start: nat, fin: nat)
    requires pos <= n <= |s| && Next(s, START, pos, n) == start
    requires Next(s, END, start, n) + |END| == fin >= |END| && Resumable(s, start, fin)
    ensures var r := Scan(s, pos, fin - 1).rest;
            && r <= fin <= n && fin - r <= MAX_DOC
            && Next(s, START, r, n) == r && Next(s, END, r, n) == fin - |END|
  {
    hide Scan, Clean, Tidy, Short, At;
    var k := fin - 1;
    NextMeaning(s, START, pos, n);
    NextMeaning(s, END, start, n);
    NextIs(s, START, pos, k, start);
    assert Next(s, END, start, k) == -1 by { NextMeaning(s, END, start, k); }
    AtDrop(s, pos, k, start);
    ResumesAfter(s, start, fin);
    var r := Scan(s, pos, k).rest;
    NextIs(s, START, r, n, r);
    NextIs(s, END, r, n, fin - |END|);
  }

  lemma ResumesAfter(s: string, start: nat, fin: nat)
    requires start + |START| < fin <= |s| && At(s, START, start) && |END| <= fin && Resumable(s, start, fin)
    requires At(s, END, fin - |END|) && forall k :: start <= k < fin - |END| ==> !At(s, END, k)
    ensures var r := Scan(s, start + |START|, fin - 1).rest;
            At(s, START, r) && fin - r <= MAX_DOC && r + |START| <= fin - |END|
  {
    hide Scan, Clean, Tidy, Short, At;
    var k := fin - 1;
    NoEnd(s, start + |START|, k);
    var q :| fin - MAX_DOC <= q && q + |START| <= fin && At(s, START, q);
    Disjoint(s, start, q);
    Disjoint(s, q, fin - |END|);
    var r := Scan(s, start + |START|, k).rest;
    assert r <= q && At(s, START, r);
    Disjoint(s, r, fin - |END|);
  }

  /** What a call keeps holds nothing more to deliver. */
  lemma {:induction false} Settled(s: string, pos: nat, n: nat)
    requires pos <= n <= |s|
    ensures var r := Scan(s, pos, n).rest; Scan(s, r, n) == Result([], r)
    decreases n - pos
  {
    var t := TurnAt(s, pos, n);
    if t.more {
      Settled(s, t.pos, n);
    } else {
      NextMeaning(s, START, pos, n);
      NextMeaning(s, START, t.pos, n);
      if Next(s, START, pos, n) != -1 { NextIs(s, START, t.pos, n, t.pos); }
    }
  }

  lemma {:induction false} CutsDeliver(s: string, pos: nat, done: nat, cuts: seq<nat>)
    requires pos <= done <= |s| && IsCutting(done, cuts, |s|) && Clean(s, pos, |s|)
    requires cuts == [] ==> Scan(s, pos, |s|) == Result([], pos)
    ensures ScanAll(s, pos, done, cuts).docs == Scan(s, pos, |s|).docs
    ensures Tidy(s, pos, |s|) ==> ScanAll(s, pos, done, cuts) == Scan(s, pos, |s|)
    decreases |cuts|
  {
    if cuts != [] {
      CutInside(done, cuts, |s|);
      Cut(s, pos, cuts[0], |s|);
      var a := Scan(s, pos, cuts[0]);
      Settled(s, pos, cuts[0]);
      CutsDeliver(s, a.rest, cuts[0], cuts[1..]);
    }
  }

  /** Two calls that together deliver more than one. */
  lemma UnlikeCutting(s: string) returns (cuts: seq<nat>)
    requires !Clean(s, 0, |s|)
    ensures IsCutting(0, cuts, |s|) && ScanAll(s, 0, 0, cuts).docs != Scan(s, 0, |s|).docs
  {
    hide At, Clean, Scan;
    var k := CutLoses(s, 0, |s|);
    cuts := [k, |s|];
    assert cuts[1..] == [|s|] && [|s|][1..] == [];
    assert IsCutting(k, [|s|], |s|) && IsCutting(0, cuts, |s|);
    var a := Scan(s, 0, k);
    var b := Scan(s, a.rest, |s|);
    assert ScanAll(s, b.rest, |s|, []) == Result([], b.rest);
    assert ScanAll(s, a.rest, k, [|s|]) == Prepend(b.docs, Result([], b.rest));
    assert |ScanAll(s, 0, 0, cuts).docs| == |a.docs| + |b.docs|;
  }

  /**
   * Cutting the stream differently never changes the delivered documents, exactly when no span that a
   * single call walks over is resumable.
   */
  lemma CuttingIsInvisibleIff(s: string)
    ensures Clean(s, 0, |s|) <==>
            forall cuts :: IsCutting(0, cuts, |s|) ==>
              ScanAll(s, 0, 0, cuts).docs == Scan(s, 0, |s|).docs
  {
    hide At, Clean;
    if Clean(s, 0, |s|) {
      forall cuts | IsCutting(0, cuts, |s|)
        ensures ScanAll(s, 0, 0, cuts).docs == Scan(s, 0, |s|).docs
      {
        CutsDeliver(s, 0, 0, cuts);
      }
    } else {
      var cuts := UnlikeCutting(s);
    }
  }

  // ----- Cutting does not matter for the kept bytes either, exactly when no span leaves anything behind -----

  lemma {:induction false} TidyIsClean(s: string, pos: nat, n: nat)
    requires pos <= n <= |s| && Tidy(s, pos, n)
    ensures Clean(s, pos, n)
    decreases n - pos
  {
    var start := Next(s, START, pos, n);
    if start != -1 && Next(s, END, start, n) != -1 { TidyIsClean(s, Next(s, END, start, n) + |END|, n); }
  }

  lemma {:induction false} ShortIsTidy(s: string, pos: nat, n: nat)
    requires pos <= n <= |s| && Short(s, pos, n)
    ensures Tidy(s, pos, n)
    decreases n - pos
  {
    var start := Next(s, START, pos, n);
    if start != -1 && Next(s, END, start, n) != -1 { ShortIsTidy(s, Next(s, END, start, n) + |END|, n); }
  }

  /** With spans of at most MAX_DOC bytes, the kept bytes do not depend on the cutting either. */
  lemma CuttingKeepsShort(s: string, cuts: seq<nat>)
    requires Short(s, 0, |s|) && IsCutting(0, cuts, |s|)
    ensures ScanAll(s, 0, 0, cuts) == Scan(s, 0, |s|)
  {
    ShortIsTidy(s, 0, |s|);
    TidyIsClean(s, 0, |s|);
    CutsDeliver(s, 0, 0, cuts);
  }

  /** Cut before its last byte, a dropped span without start tag near its end leaves the splitter at none. */
  lemma NothingInside(s: string, pos: nat, n: nat, start: nat, fin: nat)
    requires pos <= n <= |s| && Next(s, START, pos, n) == start
    requires Next(s, END, start, n) + |END| == fin >= |END|
    requires !Resumable(s, start, fin) && !LeavesNothing(s, start, fin, n)
    ensures var r := Scan(s, pos, fin - 1).rest; r < fin && NoStart(s, r, n)
  {
    hide Scan, Clean, Tidy, Short, At;
    var k := fin - 1;
    NextMeaning(s, START, pos, n);
    NextMeaning(s, END, start, n);
    NextMeaning(s, START, fin, n);
    NextIs(s, START, pos, k, start);
    assert Next(s, END, start, k) == -1 by { NextMeaning(s, END, start, k); }
    AtDrop(s, pos, k, start);
    NoEnd(s, start + |START|, k);
    var r := Scan(s, pos, k).rest;
    assert NoStart(s, r, k);
    forall q | r <= q && q + |START| <= n ensures !At(s, START, q) {
      Disjoint(s, q, fin - |END|);
    }
  }

  /** So the cut leaves bytes of the span's end tag that a single call drops. */
  lemma {:induction false} CutLeaves(s: string, pos: nat, n: nat) returns (k: nat)
    requires pos <= n <= |s| && Clean(s, pos, n) && !Tidy(s, pos, n)
    ensures pos <= k <= n && Scan(s, Scan(s, pos, k).rest, n).rest < Scan(s, pos, n).rest
    decreases n - pos
  {
    hide Scan, Clean, Short, At;
    var start := Next(s, START, pos, n);
    var fin := Next(s, END, start, n) + |END|;
    AtSpan(s, pos, n, start, fin);
    if !LeavesNothing(s, start, fin, n) {
      k := fin - 1;
      NothingInside(s, pos, n, start, fin);
      var r := Scan(s, pos, k).rest;
      NextMeaning(s, START, r, n);
      AtNoStart(s, r, n);
    } else {
      k := CutLeaves(s, fin, n);
      NextMeaning(s, START, pos, n);
      NextMeaning(s, END, start, n);
      NextIs(s, START, pos, k, start);
      NextIs(s, END, start, k, fin - |END|);
      AtSpan(s, pos, k, start, fin);
    }
  }

  lemma TwoCuts(s: string, k: nat)
    requires k <= |s|
    ensures IsCutting(0, [k, |s|], |s|)
    ensures ScanAll(s, 0, 0, [k, |s|]).rest == Scan(s, Scan(s, 0, k).rest, |s|).rest
  {
    hide At, Scan;
    var cuts := [k, |s|];
    assert cuts[1..] == [|s|] && [|s|][1..] == [];
    assert IsCutting(k, [|s|], |s|);
    var a := Scan(s, 0, k);
    var b := Scan(s, a.rest, |s|);
    assert ScanAll(s, b.rest, |s|, []) == Result([], b.rest);
    assert ScanAll(s, a.rest, k, [|s|]) == Prepend(b.docs, Result([], b.rest));
  }

  /**
   * Cutting the stream differently changes neither the delivered documents nor the bytes kept at the end, exactly when
   * no span that a single call walks over is resumable or leaves something behind.
   */
  lemma CuttingLeavesNoTraceIff(s: string)
    ensures Tidy(s, 0, |s|) <==>
            forall cuts :: IsCutting(0, cuts, |s|) ==> ScanAll(s, 0, 0, cuts) == Scan(s, 0, |s|)
  {
    hide At, Clean, Tidy, Short;
    if Tidy(s, 0, |s|) {
      TidyIsClean(s, 0, |s|);
      forall cuts | IsCutting(0, cuts, |s|) ensures ScanAll(s, 0, 0, cuts) == Scan(s, 0, |s|) {
        CutsDeliver(s, 0, 0, cuts);
      }
    } else if Clean(s, 0, |s|) {
      var k := CutLeaves(s, 0, |s|);
      TwoCuts(s, k);
    } else {
      var cuts := UnlikeCutting(s);
    }
  }

  /** A stream on which cutting matters: a lost start tag, filler, and a document. */
  function Truncated(filler: nat): string {
    START + seq(filler, _ => 'x') + START + END
  }

  lemma CuttingMatters()
    ensures exists s, cuts :: IsCutting(0, cuts, |s|) && ScanAll(s, 0, 0, cuts).docs != Scan(s, 0, |s|).docs
  {
    var s := Truncated(9000);
    assert forall k :: 0 <= k < |s| && s[k] == '<' ==> k == 0 || k == 9011 || k == 9022;
    forall k ensures At(s, START, k) ==> k == 0 || k == 9011 { TagChars(s, k, k); }
    forall k ensures At(s, END, k) ==> k == 9022 { TagChars(s, k, k); assert s[1] == 'R' && s[9012] == 'R'; }
    assert At(s, START, 0) && At(s, START, 9011) && At(s, END, 9022);
    NextIs(s, START, 0, |s|, 0);
    NextIs(s, END, 0, |s|, 9022);
    assert Resumable(s, 0, |s|);
    CuttingIsInvisibleIff(s);
  }

  /** An oversized document at the end of a stream: the bytes of its end tag may or may not be kept. */
  function Oversized(filler: nat): string { START + seq(filler, _ => 'x') + END }

  lemma LeftoversMatter()
    ensures exists s, cuts :: IsCutting(0, cuts, |s|) &&
              var r := ScanAll(s, 0, 0, cuts); r.docs == Scan(s, 0, |s|).docs && r.rest != Scan(s, 0, |s|).rest
  {
    var s := Oversized(9000);
    assert forall k :: 0 <= k < |s| && s[k] == '<' ==> k == 0 || k == 9011;
    forall k ensures At(s, START, k) ==> k == 0 { TagChars(s, k, k); assert s[9012] == '/'; }
    forall k ensures At(s, END, k) ==> k == 9011 { TagChars(s, k, k); assert s[1] == 'R'; }
    assert At(s, START, 0) && At(s, END, 9011);
    NextIs(s, START, 0, |s|, 0);
    NextIs(s, END, 0, |s|, 9011);
    NextMeaning(s, START, |s|, |s|);
    CuttingIsInvisibleIff(s);
    CuttingLeavesNoTraceIff(s);
    var cuts :| IsCutting(0, cuts, |s|) && ScanAll(s, 0, 0, cuts) != Scan(s, 0, |s|);
  }

  /** Bytes that arrive later do not change what an earlier call did. */
  lemma {:induction false} ScanPrefix(s: string, pos: nat, n: nat)
    requires pos <= n <= |s|
    ensures Scan(s[..n], pos, n) == Scan(s, pos, n)
    decreases n - pos
  {
    hide At, TurnAt;
    TurnPrefix(s, pos, n);
    var t := TurnAt(s, pos, n);
    if t.more { ScanPrefix(s, t.pos, n); }
  }

  lemma TurnPrefix(s: string, pos: nat, n: nat)
    requires pos <= n <= |s|
    ensures TurnAt(s[..n], pos, n) == TurnAt(s, pos, n)
  {
    hide At, Next;
    assert s[0..n] == s[..n];
    NextShift(s, START, 0, pos, n);
    var start := Next(s, START, pos, n);
    if start != -1 {
      NextShift(s, END, 0, start, n);
      var end := Next(s, END, start, n);
      if end != -1 { assert s[..n][start..end + |END|] == s[start..end + |END|]; }
    }
  }

  // ----- What is delivered and what is kept -----

  ghost predicate IsDocument(d: string) {
    && At(d, START, 0) && |d| <= MAX_DOC && |d| >= |END|
    && First(d, END, 0, |d|, |d| - |END|)
  }

  lemma {:induction false} DeliversDocuments(s: string, pos: nat, n: nat)
    requires pos <= n <= |s|
    ensures forall d :: d in Scan(s, pos, n).docs ==> IsDocument(d)
    decreases n - pos
  {
    var t := TurnAt(s, pos, n);
    if t.more {
      DeliversDocuments(s, t.pos, n);
      var start := Next(s, START, pos, n);
      if t.docs != [] { SpanIsDocument(s, pos, n, start, t.pos); }
    }
  }

  lemma SpanIsDocument(s: string, pos: nat, n: nat, start: nat, fin: nat)
    requires pos <= n <= |s| && Next(s, START, pos, n) == start && fin - start <= MAX_DOC
    requires Next(s, END, start, n) + |END| == fin >= |END|
    ensures IsDocument(s[start..fin])
  {
    NextMeaning(s, START, pos, n);
    NextMeaning(s, END, start, n);
    Disjoint(s, start, fin - |END|);
    AtShift(s, START, start, fin, start);
    forall k | start <= k <= fin - |END|
      ensures At(s[start..fin], END, k - start) <==> At(s, END, k)
    {
      AtShift(s, END, start, fin, k);
    }
    assert forall k :: 0 <= k < fin - |END| - start ==> !At(s[start..fin], END, k) by {
      forall k | 0 <= k < fin - |END| - start ensures !At(s[start..fin], END, k) {
        AtShift(s, END, start, fin, k + start);
      }
    }
  }

  /** The buffer stays small, and no start tag in it is followed by an end tag. */
  lemma {:induction false} KeepsNoDocument(s: string, pos: nat, n: nat)
    requires pos <= n <= |s|
    ensures var r := Scan(s, pos, n).rest;
            && n - r <= MAX_DOC
            && forall a, e :: r <= a <= e && e + |END| <= n && At(s, START, a) ==> !At(s, END, e)
    decreases n - pos
  {
    var t := TurnAt(s, pos, n);
    if t.more {
      KeepsNoDocument(s, t.pos, n);
    } else {
      NextMeaning(s, START, pos, n);
      var start := Next(s, START, pos, n);
      if start != -1 {
        NextMeaning(s, END, start, n);
      } else {
        forall a, e | t.pos <= a <= e && e + |END| <= n && At(s, START, a) ensures !At(s, END, e) {
          Disjoint(s, a, e);
        }
      }
    }
  }

  /** s[pos..n] is a list of documents, given by their bounds, in noise that holds no start tag. */
  ghost predicate Framed(s: string, pos: nat, n: nat, spans: seq<(nat, nat)>)
    requires pos <= n <= |s|
    decreases |spans|
  {
    if spans == [] then forall k :: pos <= k && k + |START| <= n ==> !At(s, START, k)
    else
      var (a, b) := spans[0];
      && pos <= a && a + |END| <= b <= n && b - a <= MAX_DOC
      && First(s, START, pos, n, a) && First(s, END, a, n, b - |END|)
      && Framed(s, b, n, spans[1..])
  }

  function Texts(s: string, spans: seq<(nat, nat)>): seq<string>
    requires forall p :: p in spans ==> p.0 <= p.1 <= |s|
  {
    seq(|spans|, i requires 0 <= i < |spans| => assert spans[i] in spans; s[spans[i].0..spans[i].1])
  }

  lemma SpanKept(s: string, start: nat, fin: nat)
    requires start <= fin <= |s| && fin - start <= MAX_DOC
    ensures Span(s, start, fin) == [s[start..fin]]
  {
  }

  /** Documents in noise are delivered exactly once each and in order, however the stream is cut. */
  lemma {:induction false} FramedIsDelivered(s: string, pos: nat, n: nat, spans: seq<(nat, nat)>)
    requires pos <= n <= |s| && Framed(s, pos, n, spans)
    ensures forall p :: p in spans ==> p.0 <= p.1 <= |s|
    ensures Scan(s, pos, n).docs == Texts(s, spans) && Short(s, pos, n)
    decreases |spans|
  {
    hide At, Clean, Span, Tidy;
    if spans == [] {
      NextMeaning(s, START, pos, n);
    } else {
      var (a, b) := spans[0];
      FramedIsDelivered(s, b, n, spans[1..]);
      NextIs(s, START, pos, n, a);
      NextIs(s, END, a, n, b - |END|);
      AtSpan(s, pos, n, a, b);
      assert Span(s, a, b) == [s[a..b]] by { SpanKept(s, a, b); }
      assert spans == [spans[0]] + spans[1..];
      assert Texts(s, spans) == [s[a..b]] + Texts(s, spans[1..]);
    }
  }
}
