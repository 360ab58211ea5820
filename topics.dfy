/** The `topics` parameter: a comma-separated list of topic names, split
    without trimming. */
module TopicList {

  /** Size of the C buffer each topic is copied into, terminator included. */
  const TopicBufferSize: nat := 256

  /** `strchr(s, ',')`: the position of the first comma, or `|s|` (the
      terminating NUL) when there is none. */
  function IndexOfComma(s: string): (k: nat)
    ensures k <= |s|
    ensures k < |s| ==> s[k] == ','
  {
    if s == [] then 0
    else if s[0] == ',' then 0
    else 1 + IndexOfComma(s[1..])
  }

  /** No comma comes before the one strchr finds. */
  lemma {:induction false} NoCommaBefore(s: string)
    ensures forall i :: 0 <= i < IndexOfComma(s) ==> s[i] != ','
    decreases |s|
  {
    if s != [] && s[0] != ',' {
      NoCommaBefore(s[1..]);
      assert forall i :: 1 <= i < |s| ==> s[i] == s[1..][i - 1];
    }
  }

  /** The list the splitter appends to `pData->topics`: one entry per
      comma-separated segment; the empty string gives the empty list and a
      trailing comma adds no empty entry. */
  function SplitTopics(s: string): (r: seq<string>)
    ensures r == [] <==> s == []
    decreases |s|
  {
    if s == [] then []
    else
      var k := IndexOfComma(s);
      if k == |s| then [s]
      else [s[..k]] + SplitTopics(s[k + 1..])
  }

  /** No parsed topic contains a comma. */
  lemma {:induction false} SplitNoCommas(s: string)
    ensures forall i :: 0 <= i < |SplitTopics(s)| ==> ',' !in SplitTopics(s)[i]
    decreases |s|
  {
    if s != [] {
      var k := IndexOfComma(s);
      NoCommaBefore(s);
      if k < |s| {
        SplitNoCommas(s[k + 1..]);
        assert forall j :: 0 <= j < k ==> s[..k][j] == s[j];
      } else {
        assert s[..k] == s;
      }
    }
  }

  /** One step of the splitter: the first segment, then the rest after
      its comma, if there is one. */
  lemma {:induction false} SplitHead(s: string)
    requires s != []
    ensures var k := IndexOfComma(s);
      SplitTopics(s) == [s[..k]] + (if k == |s| then [] else SplitTopics(s[k + 1..]))
  {
    var k := IndexOfComma(s);
    if k == |s| {
      assert s[..k] == s;
    }
  }

  /** Every segment fits the 256-byte topic buffer together with its
      terminator, segment by segment as the splitter copies them. */
  predicate SegmentsFit(s: string)
    decreases |s|
  {
    s == [] ||
    var k := IndexOfComma(s);
    k < TopicBufferSize && (k == |s| || SegmentsFit(s[k + 1..]))
  }

  /** Every name of a list fits the topic buffer. */
  predicate AllFit(ts: seq<string>) {
    forall i :: 0 <= i < |ts| ==> |ts[i]| < TopicBufferSize
  }

  lemma AllFitCons(t: string, ts: seq<string>)
    ensures AllFit([t] + ts) <==> |t| < TopicBufferSize && AllFit(ts)
  {
    var l := [t] + ts;
    assert l[0] == t;
    assert forall i :: 0 <= i < |ts| ==> l[i + 1] == ts[i];
    if |t| < TopicBufferSize && AllFit(ts) {
      forall i | 0 <= i < |l|
        ensures |l[i]| < TopicBufferSize
      {
        if i > 0 {
          assert l[i] == ts[i - 1];
        }
      }
    }
  }

  /** The segments fit exactly when every parsed topic is shorter than the
      buffer. */
  lemma {:induction false} SegmentsFitMeans(s: string)
    ensures SegmentsFit(s) <==> AllFit(SplitTopics(s))
    decreases |s|
  {
    if s != [] {
      var k := IndexOfComma(s);
      SplitHead(s);
      if k < |s| {
        SegmentsFitMeans(s[k + 1..]);
        AllFitCons(s[..k], SplitTopics(s[k + 1..]));
      } else {
        AllFitCons(s[..k], []);
      }
    }
  }

  /** One turn of the splitter loop at position `pos`, with `done` already
      appended: the segment up to the next comma (or the end) fits the
      topic buffer, and appending it leaves the rest of the input to split. */
  lemma {:induction false} SplitStep(s: string, pos: nat, done: seq<string>, d: nat)
    requires pos < |s| && SegmentsFit(s[pos..])
    requires done + SplitTopics(s[pos..]) == SplitTopics(s)
    requires d == pos + IndexOfComma(s[pos..])
    ensures d <= |s| && d - pos < TopicBufferSize
    ensures d == |s| ==> done + [s[pos..d]] == SplitTopics(s)
    ensures d < |s| ==> (done + [s[pos..d]]) + SplitTopics(s[d + 1..]) == SplitTopics(s)
    ensures d < |s| ==> SegmentsFit(s[d + 1..])
  {
    StepFits(s, pos, d);
    StepAppends(s, pos, done, d);
  }

  /** The segment the splitter copies at `pos` fits the buffer, and so do
      the segments after it. */
  lemma StepFits(s: string, pos: nat, d: nat)
    requires pos < |s| && SegmentsFit(s[pos..])
    requires d == pos + IndexOfComma(s[pos..])
    ensures d <= |s| && d - pos < TopicBufferSize
    ensures d < |s| ==> SegmentsFit(s[d + 1..])
  {
    var rest := s[pos..];
    if d < |s| {
      assert rest[d - pos + 1..] == s[d + 1..];
    }
  }

  /** Appending the segment at `pos` leaves what follows its comma to split. */
  lemma {:induction false} StepAppends(s: string, pos: nat, done: seq<string>, d: nat)
    requires pos < |s|
    requires done + SplitTopics(s[pos..]) == SplitTopics(s)
    requires d == pos + IndexOfComma(s[pos..])
    ensures d == |s| ==> done + [s[pos..d]] == SplitTopics(s)
    ensures d < |s| ==> (done + [s[pos..d]]) + SplitTopics(s[d + 1..]) == SplitTopics(s)
  {
    var rest := s[pos..];
    var k := d - pos;
    var seg := s[pos..d];
    assert rest[..k] == seg;
    SplitHead(rest);
    if k < |rest| {
      var tail := SplitTopics(rest[k + 1..]);
      assert rest[k + 1..] == s[d + 1..];
      assert done + ([seg] + tail) == SplitTopics(s);
      assert (done + [seg]) + tail == done + ([seg] + tail);
    }
  }

  /** The topic names joined again with "," between them. */
  function Join(ts: seq<string>): string
    decreases |ts|
  {
    if ts == [] then []
    else if |ts| == 1 then ts[0]
    else ts[0] + "," + Join(ts[1..])
  }

  /** `s` without one trailing comma, if it has one. */
  function DropTrailingComma(s: string): string {
    if |s| > 0 && s[|s| - 1] == ',' then s[..|s| - 1] else s
  }

  /** Joining a name in front of a non-empty list puts a comma between. */
  lemma JoinCons(t: string, r: seq<string>)
    requires r != []
    ensures Join([t] + r) == t + "," + Join(r)
  {
    assert ([t] + r)[1..] == r;
  }

  /** A trailing comma after a non-empty tail is the tail's own. */
  lemma DropCommaAfterPrefix(a: string, rest: string)
    requires rest != []
    ensures DropTrailingComma(a + "," + rest) == a + "," + DropTrailingComma(rest)
  {
    var s := a + "," + rest;
    assert s[|s| - 1] == rest[|rest| - 1];
    if rest[|rest| - 1] == ',' {
      assert s[..|s| - 1] == a + "," + rest[..|rest| - 1];
    }
  }

  /** Joining the split list gives back the input, minus one trailing comma:
      no character is dropped (no trimming) and the order is kept. */
  lemma {:induction false} JoinSplit(s: string)
    ensures Join(SplitTopics(s)) == DropTrailingComma(s)
    decreases |s|
  {
    if s != [] {
      var k := IndexOfComma(s);
      SplitHead(s);
      if k == |s| {
        NoCommaBefore(s);
        assert s[..k] == s;
      } else {
        var rest := s[k + 1..];
        assert s == s[..k] + "," + rest;
        if rest == [] {
          assert s[..|s| - 1] == s[..k];
        } else {
          JoinSplit(rest);
          JoinCons(s[..k], SplitTopics(rest));
          DropCommaAfterPrefix(s[..k], rest);
        }
      }
    }
  }

  /** The first comma of `a + "," + b` is the one after `a` when `a` has none. */
  lemma {:induction false} CommaAfterPrefix(a: string, b: string)
    requires ',' !in a
    ensures IndexOfComma(a + "," + b) == |a|
    decreases |a|
  {
    var s := a + "," + b;
    if a != [] {
      assert s[0] == a[0] && a[0] in a;
      assert s[1..] == a[1..] + "," + b;
      assert forall c :: c in a[1..] ==> c in a;
      CommaAfterPrefix(a[1..], b);
    }
  }

  /** A comma-free, non-empty string is a single topic. */
  lemma SplitSingle(t: string)
    requires t != [] && ',' !in t
    ensures SplitTopics(t) == [t]
  {
    var k := IndexOfComma(t);
    assert forall i :: 0 <= i < |t| ==> t[i] in t;
    SplitHead(t);
    assert t[..k] == t;
  }

  /** A comma-free name followed by a comma is split off as the first
      topic, whatever follows. */
  lemma SplitCons(t: string, rest: string)
    requires ',' !in t
    ensures SplitTopics(t + "," + rest) == [t] + SplitTopics(rest)
  {
    var s := t + "," + rest;
    CommaAfterPrefix(t, rest);
    SplitHead(s);
    assert s[..|t|] == t;
    assert s[|t| + 1..] == rest;
  }

  /** Splitting a joined list gives the list back, provided no name contains
      a comma and the last name is not empty (a trailing empty name would
      leave a trailing comma, which the splitter ignores). */
  lemma {:induction false} SplitJoin(ts: seq<string>)
    requires forall t :: t in ts ==> ',' !in t
    requires ts == [] || ts[|ts| - 1] != ""
    ensures SplitTopics(Join(ts)) == ts
    decreases |ts|
  {
    if |ts| == 1 {
      assert ts[0] in ts;
      SplitSingle(ts[0]);
      assert ts == [ts[0]];
    } else if |ts| > 1 {
      var rest := ts[1..];
      assert ts[0] in ts;
      assert forall t :: t in rest ==> t in ts;
      SplitJoin(rest);
      SplitCons(ts[0], Join(rest));
      assert ts == [ts[0]] + rest;
    }
  }

  /** "a,b,c" gives three entries, in order. */
  lemma SplitThree()
    ensures SplitTopics("a,b,c") == ["a", "b", "c"]
  {
    var abc: string := "a,b,c";
    assert IndexOfComma(abc) == 1;
    assert abc[..1] == "a" && abc[2..] == "b,c";
    var bc: string := "b,c";
    assert IndexOfComma(bc) == 1;
    assert bc[..1] == "b" && bc[2..] == "c";
    assert IndexOfComma("c") == 1;
  }

  /** An empty segment between two commas is kept as an empty topic. */
  lemma SplitEmptyMiddle()
    ensures SplitTopics("a,,b") == ["a", "", "b"]
  {
    var aeb: string := "a,,b";
    assert IndexOfComma(aeb) == 1;
    assert aeb[..1] == "a" && aeb[2..] == ",b";
    var eb: string := ",b";
    assert IndexOfComma(eb) == 0;
    assert eb[..0] == "" && eb[1..] == "b";
    assert IndexOfComma("b") == 1;
  }

  /** A trailing comma adds no entry; the empty string gives the empty list. */
  lemma SplitTrailingComma()
    ensures SplitTopics("a,") == ["a"]
    ensures SplitTopics("") == []
  {
    var ac: string := "a,";
    assert IndexOfComma(ac) == 1;
    assert ac[..1] == "a" && ac[2..] == "";
  }

  /** Blanks around the names are kept. */
  lemma SplitKeepsBlanks()
    ensures SplitTopics(" x , y") == [" x ", " y"]
  {
    var xy: string := " x , y";
    assert IndexOfComma(xy) == 3;
    assert xy[..3] == " x " && xy[4..] == " y";
    assert IndexOfComma(" y") == 2;
  }
}
