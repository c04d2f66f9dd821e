/** The pure core of `executeCommandOnSshStreamWithFullOutput`: given the successive
    results of sending a command and then one space per further page, gather the lines
    of every page, dropping the `--More--` line that ends each page but the last, and
    join them back with CRLF. */
module Pagination {
  import opened Text
  import opened Oracle

  const MoreMarker: string := "--More--"

  /** The output's last line, as the collector splits it, holds the pagination marker. */
  predicate AwaitsMore(out: string) {
    Contains(Last(Split(out)), MoreMarker)
  }

  /** The lines kept from the pages: all but the last line of each page but the final
      one, then every line of the final page. */
  function Gather(pages: seq<Output>): (lines: seq<string>)
    requires |pages| >= 1
    ensures |lines| >= 1 && Last(lines) == Last(Split(Last(pages).out))
    decreases |pages|
  {
    if |pages| == 1 then Split(pages[0].out)
    else DropLast(Split(pages[0].out)) + Gather(pages[1..])
  }

  /** The lines kept from pages that each awaited another page: every line but the last. */
  function Dropped(pages: seq<Output>): (lines: seq<string>)
    decreases |pages|
  {
    if |pages| == 0 then [] else DropLast(Split(pages[0].out)) + Dropped(pages[1..])
  }

  /** Gathering pages is dropping the marker line of those before the last ones. */
  lemma {:induction false} GatherAfter(done: seq<Output>, rest: seq<Output>)
    requires |rest| >= 1
    ensures Gather(done + rest) == Dropped(done) + Gather(rest)
    decreases |done|
  {
    if |done| == 0 {
      assert done + rest == rest;
    } else {
      assert (done + rest)[1..] == done[1..] + rest;
      GatherAfter(done[1..], rest);
    }
  }

  /** Dropping the marker line of one more page extends the kept lines. */
  lemma {:induction false} DroppedSnoc(done: seq<Output>, p: Output)
    ensures Dropped(done + [p]) == Dropped(done) + DropLast(Split(p.out))
    decreases |done|
  {
    if |done| == 0 {
      assert done + [p] == [p];
    } else {
      assert (done + [p])[1..] == done[1..] + [p];
      DroppedSnoc(done[1..], p);
    }
  }

  /** What the collector returns for the pages it received: the first result unchanged
      when its output is empty, and otherwise the joined lines with the final page's
      standard error. */
  function Collect(pages: seq<Output>): Output
    requires |pages| >= 1
  {
    if pages[0].out == "" then pages[0]
    else Output(Join(Gather(pages)), Last(pages).err)
  }

  /** Collecting pages keeps every line but the marker line of each page before the
      final one, then every line of the final page, and the final page's standard error. */
  lemma CollectPages(done: seq<Output>, last: Output)
    requires (done + [last])[0].out != ""
    ensures Collect(done + [last]) == Output(Join(Dropped(done) + Split(last.out)), last.err)
  {
    GatherAfter(done, [last]);
    assert Last(done + [last]) == last;
  }

  /** The pages a collector receives: every page but the last ends with the marker,
      and the last does not. */
  predicate WellPaged(pages: seq<Output>) {
    |pages| >= 1
    && (forall k :: 0 <= k < |pages| - 1 ==> AwaitsMore(pages[k].out))
    && !AwaitsMore(Last(pages).out)
  }

  /** A page ending with the marker, put in front of well-formed pages, keeps them well formed. */
  lemma WellPagedCons(first: Output, rest: seq<Output>)
    requires AwaitsMore(first.out) && WellPaged(rest)
    ensures WellPaged([first] + rest)
  {
    var pages := [first] + rest;
    assert Last(pages) == Last(rest);
    forall k | 0 <= k < |pages| - 1 ensures AwaitsMore(pages[k].out) {
      if k > 0 {
        assert pages[k] == rest[k - 1];
      }
    }
  }

  /** Output that fits on one page comes back exactly as it was received. */
  lemma CollectSinglePage(p: Output)
    ensures Collect([p]) == p
  {
    if p.out != "" {
      JoinSplit(p.out);
    }
  }

  /** No gathered line holds a CRLF. */
  lemma {:induction false} GatherHasNoCrLf(pages: seq<Output>)
    requires |pages| >= 1
    ensures forall k :: 0 <= k < |Gather(pages)| ==> !HasCrLf(Gather(pages)[k])
    decreases |pages|
  {
    SplitPiecesHaveNoCrLf(pages[0].out);
    if |pages| > 1 {
      GatherHasNoCrLf(pages[1..]);
      var head := DropLast(Split(pages[0].out));
      forall k | 0 <= k < |Gather(pages)| ensures !HasCrLf(Gather(pages)[k]) {
        if k < |head| {
          assert Gather(pages)[k] == Split(pages[0].out)[k];
        } else {
          assert Gather(pages)[k] == Gather(pages[1..])[k - |head|];
        }
      }
    }
  }

  /** The collected output splits back into exactly the gathered lines: no line is
      lost, merged or duplicated by the join. */
  lemma CollectLines(pages: seq<Output>)
    requires |pages| >= 1 && pages[0].out != ""
    ensures Split(Collect(pages).out) == Gather(pages)
  {
    GatherHasNoCrLf(pages);
    SplitJoin(Gather(pages));
  }

  /** For the pages a collector receives, the result's last line is free of the marker
      and its standard error is the final page's. */
  lemma CollectResult(pages: seq<Output>)
    requires WellPaged(pages)
    ensures !AwaitsMore(Collect(pages).out)
    ensures Collect(pages).err == Last(pages).err
  {
    if pages[0].out == "" {
      assert !AwaitsMore(pages[0].out) by {
        assert Split("") == [""];
      }
      assert |pages| == 1;
    } else {
      CollectLines(pages);
    }
  }

  /** Number of lines of each page, summed. */
  function LineCount(pages: seq<Output>): nat
    decreases |pages|
  {
    if |pages| == 0 then 0 else |Split(pages[0].out)| + LineCount(pages[1..])
  }

  /** Exactly one line, the marker line, is dropped from every page but the last. */
  lemma {:induction false} GatherDropsOneLinePerPage(pages: seq<Output>)
    requires |pages| >= 1
    ensures |Gather(pages)| == LineCount(pages) - (|pages| - 1)
    decreases |pages|
  {
    if |pages| > 1 {
      GatherDropsOneLinePerPage(pages[1..]);
      assert LineCount(pages[1..]) >= |pages| - 1 by {
        LineCountBound(pages[1..]);
      }
    }
  }

  lemma {:induction false} LineCountBound(pages: seq<Output>)
    ensures LineCount(pages) >= |pages|
    decreases |pages|
  {
    if |pages| > 0 {
      LineCountBound(pages[1..]);
    }
  }

  /** A string with no carriage return is a single line. */
  lemma SingleLine(s: string)
    requires forall i :: 0 <= i < |s| ==> s[i] != '\r'
    ensures Split(s) == [s]
  {
    assert !HasCrLf(s) by {
      forall i ensures !CrLfAt(s, i) { }
    }
    SplitNoCrLf(s);
  }

  /** A page of one line followed by the marker line. */
  lemma MarkedPage(line: string, marker: string)
    requires forall i :: 0 <= i < |line| ==> line[i] != '\r'
    requires forall i :: 0 <= i < |marker| ==> marker[i] != '\r'
    ensures Split(line + CrLf + marker) == [line, marker]
  {
    SplitAcross(line, marker);
    SingleLine(line);
    SingleLine(marker);
  }

  /** Two marked pages of one line each, then a final page of one line, collected. */
  lemma ThreePages(l1: string, l2: string, l3: string, e1: string, e2: string, e3: string)
    requires forall i :: 0 <= i < |l1| ==> l1[i] != '\r'
    requires forall i :: 0 <= i < |l2| ==> l2[i] != '\r'
    requires forall i :: 0 <= i < |l3| ==> l3[i] != '\r'
    ensures Collect([Output(l1 + CrLf + MoreMarker, e1), Output(l2 + CrLf + MoreMarker, e2), Output(l3, e3)])
         == Output(l1 + CrLf + l2 + CrLf + l3, e3)
  {
    var pages := [Output(l1 + CrLf + MoreMarker, e1), Output(l2 + CrLf + MoreMarker, e2), Output(l3, e3)];
    GatherThree(l1, l2, l3, e1, e2, e3);
    JoinThree(l1, l2, l3);
    assert Last(pages) == Output(l3, e3);
    assert pages[0].out != "" by {
      assert |pages[0].out| >= |CrLf|;
    }
  }

  /** The gathered lines of the three pages above are their first lines. */
  lemma GatherThree(l1: string, l2: string, l3: string, e1: string, e2: string, e3: string)
    requires forall i :: 0 <= i < |l1| ==> l1[i] != '\r'
    requires forall i :: 0 <= i < |l2| ==> l2[i] != '\r'
    requires forall i :: 0 <= i < |l3| ==> l3[i] != '\r'
    ensures Gather([Output(l1 + CrLf + MoreMarker, e1), Output(l2 + CrLf + MoreMarker, e2), Output(l3, e3)])
         == [l1, l2, l3]
  {
    var p1, p2, p3 := Output(l1 + CrLf + MoreMarker, e1), Output(l2 + CrLf + MoreMarker, e2), Output(l3, e3);
    MarkedPage(l1, MoreMarker);
    MarkedPage(l2, MoreMarker);
    SingleLine(l3);
    assert Gather([p3]) == [l3];
    assert [p2, p3][1..] == [p3];
    assert Gather([p2, p3]) == [l2] + [l3];
    assert [p1, p2, p3][1..] == [p2, p3];
    assert Gather([p1, p2, p3]) == [l1] + [l2, l3];
  }

  /** Joining three lines puts one CRLF between each two. */
  lemma JoinThree(l1: string, l2: string, l3: string)
    ensures Join([l1, l2, l3]) == l1 + CrLf + l2 + CrLf + l3
  {
    assert [l1, l2, l3][1..] == [l2, l3];
    assert [l2, l3][1..] == [l3];
    assert Join([l2, l3]) == l2 + CrLf + l3;
    assert Join([l1, l2, l3]) == l1 + CrLf + (l2 + CrLf + l3);
    assert l1 + CrLf + (l2 + CrLf + l3) == l1 + CrLf + l2 + CrLf + l3;
  }

  /** The three-page listing `line1`, `line2`, `line3`, collected. */
  lemma ThreePageExample(e1: string, e2: string, e3: string)
    ensures Collect([Output("line1\r\n--More--", e1), Output("line2\r\n--More--", e2), Output("line3", e3)])
         == Output("line1\r\nline2\r\nline3", e3)
  {
    ThreePages("line1", "line2", "line3", e1, e2, e3);
    assert "line1" + CrLf + MoreMarker == "line1\r\n--More--";
    assert "line2" + CrLf + MoreMarker == "line2\r\n--More--";
    assert "line1" + CrLf + "line2" + CrLf + "line3" == "line1\r\nline2\r\nline3";
  }
}
