// llms/toolloop/compact/compact.go: the cut rule shared by the KeepLast and
// Summarize compactors, and what it preserves.
module Compact {
  import opened Messages
  import opened Validation
  import opened ReasoningFilter

  const SUMMARY_HEADER :=
    "Summary of the earlier part of this conversation " +
    "(older turns were removed to fit the context window):\n\n"

  predicate IsSummary(m: Message) {
    m.role.User? && |m.content| == 1 && m.content[0].Text? && SUMMARY_HEADER <= m.content[0].text
  }

  predicate IsPrompt(m: Message) {
    m.role.User? && !IsSummary(m)
  }

  function SummaryMessage(summary: string): Message {
    UserText(SUMMARY_HEADER + summary)
  }

  // msgs[..head] is the head, msgs[cut..] the kept turns, msgs[pin..pinEnd] the
  // in-flight prompt when it lies between them.
  datatype Span = Span(head: nat, pin: nat, pinEnd: nat, cut: nat) {
    predicate Drops() {
      cut - head > pinEnd - pin
    }

    predicate Ordered(msgs: seq<Message>) {
      head <= pin <= pinEnd <= cut <= |msgs|
    }

    function Dropped(msgs: seq<Message>): seq<Message>
      requires Ordered(msgs)
    {
      msgs[head..pin] + msgs[pinEnd..cut]
    }

    function Kept(msgs: seq<Message>, insert: seq<Message>): seq<Message>
      requires Ordered(msgs)
    {
      msgs[..head] + insert + msgs[pin..pinEnd] + msgs[cut..]
    }
  }

  // ---------- The cut rule as a function ----------

  // Every message through the first user message at or after i.
  function HeadFrom(msgs: seq<Message>, i: nat): (h: nat)
    requires i <= |msgs|
    ensures i <= h <= |msgs|
    ensures forall k :: i <= k < h - 1 ==> !msgs[k].role.User?
    ensures h < |msgs| ==> h > i && msgs[h - 1].role.User?
    decreases |msgs| - i
  {
    if i == |msgs| then i else if msgs[i].role.User? then i + 1 else HeadFrom(msgs, i + 1)
  }

  function HeadLen(msgs: seq<Message>): nat {
    HeadFrom(msgs, 0)
  }

  // Where the run of user messages ending just before i starts, not before lo.
  function UserRunStart(msgs: seq<Message>, lo: nat, i: nat): (r: nat)
    requires lo <= i <= |msgs|
    ensures lo <= r <= i
    ensures forall k :: r <= k < i ==> msgs[k].role.User?
    ensures r > lo ==> !msgs[r - 1].role.User?
  {
    if i > lo && msgs[i - 1].role.User? then UserRunStart(msgs, lo, i - 1) else i
  }

  // The start of every turn of msgs[head..hi], in order.
  function Starts(msgs: seq<Message>, head: nat, hi: nat): (starts: seq<nat>)
    requires head <= hi <= |msgs|
    ensures forall k :: 0 <= k < |starts| ==> head <= starts[k] < hi
    decreases hi
  {
    if hi == head then []
    else Starts(msgs, head, hi - 1) +
         (if msgs[hi - 1].role.Assistant? then [UserRunStart(msgs, head, hi - 1)] else [])
  }

  function CutPoint(msgs: seq<Message>, head: nat, keep: int): (cut: nat)
    requires head <= |msgs|
    ensures head <= cut <= |msgs|
  {
    var starts := Starts(msgs, head, |msgs|);
    if keep > 0 && |starts| <= keep then head
    else if keep > 0 then starts[|starts| - keep]
    else UserRunStart(msgs, head, |msgs|)
  }

  // The end of the last prompt message at or before i, and the start of the
  // run of prompt messages ending there.
  function PromptEnd(msgs: seq<Message>, lo: nat, i: nat): (r: nat)
    requires lo <= i <= |msgs|
    ensures lo <= r <= i
    ensures forall k :: r <= k < i ==> !IsPrompt(msgs[k])
    ensures r > lo ==> IsPrompt(msgs[r - 1])
  {
    if i > lo && !IsPrompt(msgs[i - 1]) then PromptEnd(msgs, lo, i - 1) else i
  }

  function PromptStart(msgs: seq<Message>, lo: nat, i: nat): (r: nat)
    requires lo <= i <= |msgs|
    ensures lo <= r <= i
    ensures forall k :: r <= k < i ==> IsPrompt(msgs[k])
    ensures r > lo ==> !IsPrompt(msgs[r - 1])
  {
    if i > lo && IsPrompt(msgs[i - 1]) then PromptStart(msgs, lo, i - 1) else i
  }

  function InFlight(msgs: seq<Message>, head: nat): (r: (nat, nat))
    requires head <= |msgs|
    ensures head <= r.0 <= r.1 <= |msgs|
  {
    if msgs == [] || EndsWithAssistant(msgs) then (head, head)
    else
      var end := PromptEnd(msgs, head, |msgs|);
      (PromptStart(msgs, head, end), end)
  }

  function SplitSpan(msgs: seq<Message>, keep: int): (s: Span)
    ensures s.Ordered(msgs)
  {
    var head := HeadLen(msgs);
    var cut := CutPoint(msgs, head, keep);
    var (pin, end) := InFlight(msgs, head);
    if pin < end && end <= cut then Span(head, pin, end, cut) else Span(head, cut, cut, cut)
  }

  // ---------- The loops of split and inFlightPrompt ----------

  method InFlightPrompt(msgs: seq<Message>, head: nat) returns (pin: nat, end: nat)
    requires head <= |msgs|
    ensures (pin, end) == InFlight(msgs, head)
  {
    if |msgs| == 0 || msgs[|msgs| - 1].role.Assistant? {
      return head, head;
    }
    end := |msgs|;
    while end > head && (!msgs[end - 1].role.User? || IsSummary(msgs[end - 1]))
      invariant head <= end <= |msgs|
      invariant PromptEnd(msgs, head, end) == PromptEnd(msgs, head, |msgs|)
    {
      end := end - 1;
    }
    pin := end;
    while pin > head && msgs[pin - 1].role.User? && !IsSummary(msgs[pin - 1])
      invariant head <= pin <= end
      invariant PromptStart(msgs, head, pin) == PromptStart(msgs, head, end)
    {
      pin := pin - 1;
    }
  }

  method TurnStarts(msgs: seq<Message>, head: nat) returns (starts: seq<nat>)
    requires head <= |msgs|
    ensures starts == Starts(msgs, head, |msgs|)
  {
    starts := [];
    for i := head to |msgs|
      invariant starts == Starts(msgs, head, i)
    {
      if msgs[i].role.Assistant? {
        var start := i;
        while start > head && msgs[start - 1].role.User?
          invariant head <= start <= i
          invariant UserRunStart(msgs, head, start) == UserRunStart(msgs, head, i)
        {
          start := start - 1;
        }
        starts := starts + [start];
      }
    }
  }

  method Split(msgs: seq<Message>, keep: int) returns (s: Span)
    ensures s == SplitSpan(msgs, keep)
  {
    var head := |msgs|;
    var i := 0;
    while i < |msgs| && head == |msgs|
      invariant 0 <= i <= |msgs| && 0 <= head <= |msgs|
      invariant head == |msgs| ==> HeadLen(msgs) == HeadFrom(msgs, i)
      invariant head < |msgs| ==> HeadLen(msgs) == head
    {
      if msgs[i].role.User? {
        head := i + 1;
        if head == |msgs| {
          break;
        }
      }
      i := i + 1;
    }
    var starts := TurnStarts(msgs, head);
    var cut: nat;
    if keep > 0 && |starts| <= keep {
      cut := head;
    } else if keep > 0 {
      cut := starts[|starts| - keep];
    } else {
      cut := |msgs|;
      while cut > head && msgs[cut - 1].role.User?
        invariant head <= cut <= |msgs|
        invariant UserRunStart(msgs, head, cut) == UserRunStart(msgs, head, |msgs|)
      {
        cut := cut - 1;
      }
    }
    s := Span(head, cut, cut, cut);
    var pin, end := InFlightPrompt(msgs, head);
    if pin < end && end <= cut {
      s := s.(pin := pin, pinEnd := end);
    }
  }

  // ---------- Cut-rule contract ----------

  // The turns of a transcript: one per assistant message.
  function Turns(msgs: seq<Message>): nat {
    if msgs == [] then 0 else (if msgs[0].role.Assistant? then 1 else 0) + Turns(msgs[1..])
  }

  lemma {:induction false} TurnsConcat(a: seq<Message>, b: seq<Message>)
    ensures Turns(a + b) == Turns(a) + Turns(b)
  {
    if a == [] {
      assert a + b == b;
    } else {
      TurnsConcat(a[1..], b);
      assert (a + b)[1..] == a[1..] + b;
    }
  }

  lemma {:induction false} NoTurns(msgs: seq<Message>)
    requires forall i :: 0 <= i < |msgs| ==> !msgs[i].role.Assistant?
    ensures Turns(msgs) == 0
  {
    if msgs != [] {
      NoTurns(msgs[1..]);
    }
  }

  // From its j-th start on, a transcript holds all its turns but the first j.
  lemma {:induction false} StartsCount(msgs: seq<Message>, head: nat, hi: nat)
    requires head <= hi <= |msgs|
    ensures |Starts(msgs, head, hi)| == Turns(msgs[head..hi])
    ensures forall j :: 0 <= j < |Starts(msgs, head, hi)| ==>
              Turns(msgs[Starts(msgs, head, hi)[j]..hi]) == |Starts(msgs, head, hi)| - j
    decreases hi
  {
    if hi > head {
      StartsCount(msgs, head, hi - 1);
      var before, all := Starts(msgs, head, hi - 1), Starts(msgs, head, hi);
      OneMoreTurn(msgs, head, hi);
      forall j | 0 <= j < |all| ensures Turns(msgs[all[j]..hi]) == |all| - j {
        OneMoreTurn(msgs, all[j], hi);
        if j == |before| {
          assert all[j] == UserRunStart(msgs, head, hi - 1);
          NoTurns(msgs[all[j]..hi - 1]);
        } else {
          assert all[j] == before[j];
        }
      }
    }
  }

  lemma OneMoreTurn(msgs: seq<Message>, lo: nat, hi: nat)
    requires lo < hi <= |msgs|
    ensures Turns(msgs[lo..hi]) == Turns(msgs[lo..hi - 1]) + if msgs[hi - 1].role.Assistant? then 1 else 0
  {
    assert msgs[lo..hi] == msgs[lo..hi - 1] + [msgs[hi - 1]];
    TurnsConcat(msgs[lo..hi - 1], [msgs[hi - 1]]);
    assert [msgs[hi - 1]][1..] == [];
  }

  // A start is a user or assistant message that does not follow a user
  // message, unless it is the first message after the head.
  lemma {:induction false} StartsShape(msgs: seq<Message>, head: nat, hi: nat, j: nat)
    requires head <= hi <= |msgs| && j < |Starts(msgs, head, hi)|
    ensures
      var start := Starts(msgs, head, hi)[j];
      && (msgs[start].role.User? || msgs[start].role.Assistant?)
      && (start > head ==> !msgs[start - 1].role.User?)
    decreases hi
  {
    if j < |Starts(msgs, head, hi - 1)| {
      StartsShape(msgs, head, hi - 1, j);
    }
  }

  lemma CutShape(msgs: seq<Message>, head: nat, keep: int)
    requires head <= |msgs|
    ensures
      var cut := CutPoint(msgs, head, keep);
      && (cut > head ==> !msgs[cut - 1].role.User?)
      && (head < cut < |msgs| ==> msgs[cut].role.User? || msgs[cut].role.Assistant?)
  {
    var starts := Starts(msgs, head, |msgs|);
    if keep > 0 && |starts| > keep {
      StartsShape(msgs, head, |msgs|, |starts| - keep);
    }
  }

  // Exactly the last keep turns survive when more exist, all of them otherwise.
  lemma CutTurns(msgs: seq<Message>, head: nat, keep: int)
    requires head <= |msgs|
    ensures Turns(msgs[CutPoint(msgs, head, keep)..]) ==
            if keep <= 0 then 0 else if Turns(msgs[head..]) <= keep then Turns(msgs[head..]) else keep
    ensures keep > 0 && CutPoint(msgs, head, keep) > head ==> Turns(msgs[head..]) > keep
  {
    var cut := CutPoint(msgs, head, keep);
    StartsCount(msgs, head, |msgs|);
    assert msgs[head..|msgs|] == msgs[head..] && msgs[cut..|msgs|] == msgs[cut..];
    if keep <= 0 {
      NoTurns(msgs[cut..]);
    }
  }

  lemma PinnedArePrompts(msgs: seq<Message>, keep: int)
    ensures
      var s := SplitSpan(msgs, keep);
      && s.head == HeadLen(msgs) && s.cut == CutPoint(msgs, s.head, keep)
      && forall k :: s.pin <= k < s.pinEnd ==> IsPrompt(msgs[k])
  {
  }

  lemma KeptTurns(msgs: seq<Message>, s: Span, insert: seq<Message>)
    requires s.Ordered(msgs)
    requires forall k :: s.pin <= k < s.pinEnd ==> msgs[k].role.User?
    requires forall k :: 0 <= k < |insert| ==> insert[k].role.User?
    ensures Turns(s.Kept(msgs, insert)[s.head..]) == Turns(msgs[s.cut..])
  {
    var a, b, c, d := msgs[..s.head], insert, msgs[s.pin..s.pinEnd], msgs[s.cut..];
    assert (a + b + c + d)[s.head..] == b + c + d;
    NoTurns(b + c);
    TurnsConcat(b + c, d);
  }

  // Turns kept by the cut rule, and where the cut falls.
  lemma CutKeepsLastTurns(msgs: seq<Message>, keep: int)
    ensures
      var s := SplitSpan(msgs, keep);
      var total := Turns(msgs[s.head..]);
      && Turns(s.Kept(msgs, [])[s.head..]) == (if keep <= 0 then 0 else if total <= keep then total else keep)
      && (s.cut > s.head ==> !msgs[s.cut - 1].role.User?)
      && (s.head < s.cut < |msgs| ==> msgs[s.cut].role.User? || msgs[s.cut].role.Assistant?)
  {
    var s := SplitSpan(msgs, keep);
    PinnedArePrompts(msgs, keep);
    CutShape(msgs, s.head, keep);
    CutTurns(msgs, s.head, keep);
    KeptTurns(msgs, s, []);
  }

  lemma FiveSlices<T>(m: seq<T>, i: nat, j: nat, k: nat, l: nat)
    requires i <= j <= k <= l <= |m|
    ensures multiset(m[..i] + [] + m[j..k] + m[l..]) + multiset(m[i..j] + m[k..l]) == multiset(m)
  {
    assert m[k..] == m[k..l] + m[l..];
    assert m[j..] == m[j..k] + m[k..];
    assert m[i..] == m[i..j] + m[j..];
    assert m == m[..i] + m[i..];
  }

  lemma FiveInOrder<T>(m: seq<T>, i: nat, j: nat, k: nat, l: nat)
    requires i <= j <= k <= l <= |m|
    ensures m == m[..i] + m[i..j] + m[j..k] + m[k..l] + m[l..]
    ensures m[..i] + [] + m[j..k] + m[l..] == m[..i] + m[j..k] + m[l..]
  {
  }

  // Kept and dropped messages partition the transcript, each in order.
  lemma KeptAndDroppedPartition(msgs: seq<Message>, s: Span)
    requires s.Ordered(msgs)
    ensures
      var a, b, c, d, e :=
        msgs[..s.head], msgs[s.head..s.pin], msgs[s.pin..s.pinEnd], msgs[s.pinEnd..s.cut], msgs[s.cut..];
      msgs == a + b + c + d + e && s.Kept(msgs, []) == a + c + e && s.Dropped(msgs) == b + d
    ensures multiset(s.Kept(msgs, [])) + multiset(s.Dropped(msgs)) == multiset(msgs)
    ensures s.Drops() <==> s.Dropped(msgs) != []
    ensures !s.Drops() ==> s.Kept(msgs, []) == msgs
  {
    FiveSlices(msgs, s.head, s.pin, s.pinEnd, s.cut);
    FiveInOrder(msgs, s.head, s.pin, s.pinEnd, s.cut);
    NothingDropped(msgs, s);
  }

  lemma NothingDropped(msgs: seq<Message>, s: Span)
    requires s.Ordered(msgs)
    ensures !s.Drops() ==> s.Kept(msgs, []) == msgs
  {
    if !s.Drops() {
      assert s.head == s.pin && s.pinEnd == s.cut;
      assert msgs == msgs[..s.head] + msgs[s.head..];
      assert msgs[s.head..] == msgs[s.pin..s.pinEnd] + msgs[s.cut..];
      assert msgs[..s.head] + [] == msgs[..s.head];
    }
  }

  predicate HasRun<T(==)>(s: seq<T>, at: nat, run: seq<T>) {
    at + |run| <= |s| && s[at..at + |run|] == run
  }

  lemma RunKept(msgs: seq<Message>, s: Span, pin: nat, end: nat) returns (at: nat)
    requires s.Ordered(msgs) && pin <= end <= |msgs|
    requires (s.pin == pin && s.pinEnd == end) || s.cut <= pin
    ensures HasRun(s.Kept(msgs, []), at, msgs[pin..end])
  {
    var kept := s.Kept(msgs, []);
    var p := s.pinEnd - s.pin;
    at := if s.cut <= pin then s.head + p + (pin - s.cut) else s.head;
    forall k | at <= k < at + (end - pin) ensures kept[k] == msgs[pin + (k - at)] {
    }
    assert kept[at..at + (end - pin)] == msgs[pin..end];
  }

  // The in-flight prompt survives whole and contiguous: it never straddles
  // the cut, and it is pinned exactly when it lies before it.
  lemma PromptSurvives(msgs: seq<Message>, keep: int)
    ensures
      var s := SplitSpan(msgs, keep);
      var (pin, end) := InFlight(msgs, s.head);
      && (pin < end ==> end <= s.cut || s.cut <= pin)
      && (pin < end <= s.cut <==> s.pin < s.pinEnd)
      && (s.pin < s.pinEnd ==> s.pin == pin && s.pinEnd == end)
      && (pin < end ==> exists at :: HasRun(s.Kept(msgs, []), at, msgs[pin..end]))
  {
    var s := SplitSpan(msgs, keep);
    var (pin, end) := InFlight(msgs, s.head);
    CutShape(msgs, s.head, keep);
    InFlightArePrompts(msgs, s.head, pin, end);
    assert pin < end ==> end <= s.cut || s.cut <= pin;
    if pin < end {
      var at := RunKept(msgs, s, pin, end);
    }
  }

  lemma InFlightArePrompts(msgs: seq<Message>, head: nat, pin: nat, end: nat)
    requires head <= |msgs| && (pin, end) == InFlight(msgs, head)
    ensures forall k :: pin <= k < end ==> IsPrompt(msgs[k])
  {
  }

  // What the in-flight prompt is: the last run of user messages after the
  // head that are not summaries, unless an assistant message ends the
  // transcript.
  lemma {:induction false} InFlightIsLastPrompt(msgs: seq<Message>)
    requires msgs != [] && !EndsWithAssistant(msgs)
    ensures
      var head := HeadLen(msgs);
      var (pin, end) := InFlight(msgs, head);
      && (pin == end <==> forall k :: head <= k < |msgs| ==> !IsPrompt(msgs[k]))
      && (forall k :: pin <= k < end ==> IsPrompt(msgs[k]))
      && (forall k :: end <= k < |msgs| ==> !IsPrompt(msgs[k]))
      && (pin < end && pin > head ==> !IsPrompt(msgs[pin - 1]))
  {
    var head := HeadLen(msgs);
    var (pin, end) := InFlight(msgs, head);
    if end > head {
      assert IsPrompt(msgs[end - 1]);
      assert pin < end;
    }
  }

  // ---------- Compaction keeps a transcript valid ----------

  // At a boundary no call can be waiting for its result.
  predicate Boundary(msgs: seq<Message>, i: nat) {
    i <= |msgs| && (i == |msgs| || msgs[i].role.User? || msgs[i].role.Assistant? || (i > 0 && msgs[i - 1].role.User?))
  }

  lemma NothingPendingAtBoundary(msgs: seq<Message>, i: nat)
    requires Valid(msgs) && Boundary(msgs, i)
    ensures Scan({}, msgs[..i]) == Some({}) && Scan({}, msgs[i..]) == Some({})
  {
    assert msgs == msgs[..i] + msgs[i..];
    ScanConcat({}, msgs[..i], msgs[i..]);
    if i < |msgs| && !(msgs[i].role.User? || msgs[i].role.Assistant?) {
      assert msgs[..i] == msgs[..i - 1] + [msgs[i - 1]];
      ScanSnoc({}, msgs[..i - 1], msgs[i - 1]);
    }
  }

  lemma SegmentClear(msgs: seq<Message>, i: nat, j: nat)
    requires Valid(msgs) && i <= j && Boundary(msgs, i) && Boundary(msgs, j)
    ensures Scan({}, msgs[i..j]) == Some({})
  {
    NothingPendingAtBoundary(msgs, i);
    NothingPendingAtBoundary(msgs, j);
    assert msgs[..j] == msgs[..i] + msgs[i..j];
    ScanConcat({}, msgs[..i], msgs[i..j]);
  }

  // The cut always falls where no tool call is pending.
  lemma SplitFallsOnBoundaries(msgs: seq<Message>, keep: int)
    ensures
      var s := SplitSpan(msgs, keep);
      Boundary(msgs, s.head) && Boundary(msgs, s.pin) && Boundary(msgs, s.pinEnd) && Boundary(msgs, s.cut)
  {
    var s := SplitSpan(msgs, keep);
    PinnedArePrompts(msgs, keep);
    CutShape(msgs, s.head, keep);
  }

  lemma SummaryIsClear(summary: string)
    ensures Scan({}, [SummaryMessage(summary)]) == Some({})
  {
    var m := SummaryMessage(summary);
    assert !m.content[0].ReasoningPart?;
    assert HasNonReasoning(m) && PartsLegal(m);
    assert [m][1..] == [];
  }

  // For every valid transcript and every keep, the compacted transcript, with
  // or without a summary, is valid again.
  lemma CompactionKeepsValid(msgs: seq<Message>, keep: int, insert: seq<Message>)
    requires Valid(msgs) && Scan({}, insert) == Some({})
    ensures
      var kept := SplitSpan(msgs, keep).Kept(msgs, insert);
      Valid(kept) && Valid(WithoutReasoning(kept))
  {
    var s := SplitSpan(msgs, keep);
    SplitFallsOnBoundaries(msgs, keep);
    NothingPendingAtBoundary(msgs, s.head);
    NothingPendingAtBoundary(msgs, s.cut);
    SegmentClear(msgs, s.pin, s.pinEnd);
    var a, b, c, d := msgs[..s.head], insert, msgs[s.pin..s.pinEnd], msgs[s.cut..];
    ScanConcat({}, a, b);
    ScanConcat({}, a + b, c);
    ScanConcat({}, a + b + c, d);
    assert s.head > 0;
    FilterKeepsValid(s.Kept(msgs, insert), DropAll());
  }

  // When something is dropped, the compacted transcript ends with an
  // assistant message exactly when the input did and turns are kept.
  lemma {:induction false} CompactionEnd(msgs: seq<Message>, keep: int, insert: seq<Message>)
    requires SplitSpan(msgs, keep).Drops() && !EndsWithAssistant(insert)
    ensures EndsWithAssistant(WithoutReasoning(SplitSpan(msgs, keep).Kept(msgs, insert))) <==>
            EndsWithAssistant(msgs) && keep > 0
  {
    var s := SplitSpan(msgs, keep);
    var kept := s.Kept(msgs, insert);
    var starts := Starts(msgs, s.head, |msgs|);
    if s.cut < |msgs| {
      assert kept[|kept| - 1] == msgs[|msgs| - 1];
      if keep <= 0 {
        assert msgs[|msgs| - 1].role.User?;
      }
    } else if s.pin < s.pinEnd {
      assert kept[|kept| - 1] == msgs[s.pinEnd - 1];
    } else if insert != [] {
      assert kept[|kept| - 1] == insert[|insert| - 1];
    } else {
      assert kept[|kept| - 1] == msgs[s.head - 1];
    }
  }

  // ---------- Stability: compacting twice drops nothing the second time ----------

  // The head is decided by the roles of its own messages.
  lemma {:induction false} HeadLenPrefix(msgs: seq<Message>, other: seq<Message>, i: nat)
    requires i <= |msgs| && i <= |other|
    requires i < HeadFrom(msgs, i) <= |other| && msgs[HeadFrom(msgs, i) - 1].role.User?
    requires forall k :: i <= k < HeadFrom(msgs, i) ==> other[k].role == msgs[k].role
    ensures HeadFrom(other, i) == HeadFrom(msgs, i)
    decreases |msgs| - i
  {
    if !msgs[i].role.User? {
      HeadLenPrefix(msgs, other, i + 1);
    }
  }

  lemma {:induction false} TurnsOfRoles(a: seq<Message>, b: seq<Message>)
    requires |a| == |b| && forall i :: 0 <= i < |a| ==> a[i].role == b[i].role
    ensures Turns(a) == Turns(b)
  {
    if a != [] {
      assert a[0].role == b[0].role;
      TurnsOfRoles(a[1..], b[1..]);
    }
  }

  lemma {:induction false} UserRunStartAll(msgs: seq<Message>, lo: nat, i: nat)
    requires lo <= i <= |msgs| && forall k :: lo <= k < i ==> msgs[k].role.User?
    ensures UserRunStart(msgs, lo, i) == lo
  {
    if i > lo {
      UserRunStartAll(msgs, lo, i - 1);
    }
  }

  // A compacted transcript has the same head.
  lemma SameHead(msgs: seq<Message>, s: Span, insert: seq<Message>)
    requires s.Ordered(msgs) && s.head == HeadLen(msgs) < |msgs|
    ensures HeadLen(WithoutReasoning(s.Kept(msgs, insert))) == s.head
  {
    var kept := s.Kept(msgs, insert);
    var again := WithoutReasoning(kept);
    assert forall i :: 0 <= i < s.head ==> again[i].role == kept[i].role && kept[i] == msgs[i];
    HeadLenPrefix(msgs, again, 0);
  }

  lemma SecondCutKeeping(msgs: seq<Message>, s: Span, insert: seq<Message>, keep: int)
    requires s.Ordered(msgs)
    requires forall k :: 0 <= k < |insert| ==> insert[k].role.User?
    requires forall k :: s.pin <= k < s.pinEnd ==> msgs[k].role.User?
    requires keep > 0 && Turns(msgs[s.cut..]) <= keep
    ensures CutPoint(WithoutReasoning(s.Kept(msgs, insert)), s.head, keep) == s.head
  {
    var kept := s.Kept(msgs, insert);
    var again := WithoutReasoning(kept);
    KeptTurns(msgs, s, insert);
    TurnsOfRoles(again[s.head..], kept[s.head..]);
    CutTurns(again, s.head, keep);
  }

  lemma SecondCutUsers(msgs: seq<Message>, s: Span, insert: seq<Message>, keep: int)
    requires s.Ordered(msgs)
    requires forall k :: 0 <= k < |insert| ==> insert[k].role.User?
    requires forall k :: s.pin <= k < s.pinEnd ==> msgs[k].role.User?
    requires keep <= 0 && forall k :: s.cut <= k < |msgs| ==> msgs[k].role.User?
    ensures CutPoint(WithoutReasoning(s.Kept(msgs, insert)), s.head, keep) == s.head
  {
    var kept := s.Kept(msgs, insert);
    var again := WithoutReasoning(kept);
    var i, p := |insert|, s.pinEnd - s.pin;
    forall k | s.head <= k < |again| ensures again[k].role.User? {
      assert again[k].role == kept[k].role;
      assert kept[k] == if k < s.head + i then insert[k - s.head]
        else if k < s.head + i + p then msgs[s.pin + (k - s.head - i)]
                        else msgs[s.cut + (k - s.head - i - p)];
    }
    UserRunStartAll(again, s.head, |again|);
  }

  // The roles after the head of a compacted transcript decide a second cut.
  lemma SecondCut(msgs: seq<Message>, s: Span, insert: seq<Message>, keep: int)
    requires s.Ordered(msgs) && s.head == HeadLen(msgs) < |msgs|
    requires forall k :: 0 <= k < |insert| ==> insert[k].role.User?
    requires forall k :: s.pin <= k < s.pinEnd ==> msgs[k].role.User?
    requires keep > 0 ==> Turns(msgs[s.cut..]) <= keep
    requires keep <= 0 ==> forall k :: s.cut <= k < |msgs| ==> msgs[k].role.User?
    ensures HeadLen(WithoutReasoning(s.Kept(msgs, insert))) == s.head
    ensures CutPoint(WithoutReasoning(s.Kept(msgs, insert)), s.head, keep) == s.head
  {
    SameHead(msgs, s, insert);
    if keep > 0 {
      SecondCutKeeping(msgs, s, insert, keep);
    } else {
      SecondCutUsers(msgs, s, insert, keep);
    }
  }

  lemma CompactionIsStable(msgs: seq<Message>, keep: int, insert: seq<Message>)
    requires SplitSpan(msgs, keep).Drops()
    requires forall i :: 0 <= i < |insert| ==> insert[i].role.User?
    ensures !SplitSpan(WithoutReasoning(SplitSpan(msgs, keep).Kept(msgs, insert)), keep).Drops()
  {
    var s := SplitSpan(msgs, keep);
    PinnedArePrompts(msgs, keep);
    CutTurns(msgs, s.head, keep);
    SecondCut(msgs, s, insert, keep);
    NoDropAtHead(WithoutReasoning(s.Kept(msgs, insert)), keep);
  }

  lemma NoDropAtHead(msgs: seq<Message>, keep: int)
    requires CutPoint(msgs, HeadLen(msgs), keep) == HeadLen(msgs)
    ensures !SplitSpan(msgs, keep).Drops()
  {
  }

  // ---------- Summaries roll ----------

  // What happens to a stored transcript: turns are appended, or Summarize
  // compacts it.
  datatype Event = Append(msgs: seq<Message>) | Summarized(keep: nat, summary: string)

  function Summarizing(msgs: seq<Message>, keep: nat, summary: string): seq<Message> {
    var s := SplitSpan(msgs, keep);
    if !s.Drops() then msgs else WithoutReasoning(s.Kept(msgs, [SummaryMessage(summary)]))
  }

  function After(msgs: seq<Message>, e: Event): seq<Message> {
    match e
    case Append(more) => msgs + more
    case Summarized(keep, summary) => Summarizing(msgs, keep, summary)
  }

  // The app appends messages that are not summaries and leave a valid
  // transcript.
  predicate Allowed(msgs: seq<Message>, e: Event) {
    e.Append? ==> Valid(msgs + e.msgs) && forall m :: m in e.msgs ==> !IsSummary(m)
  }

  predicate AllowedRun(msgs: seq<Message>, events: seq<Event>)
    decreases |events|
  {
    events == [] || (Allowed(msgs, events[0]) && AllowedRun(After(msgs, events[0]), events[1..]))
  }

  function AfterAll(msgs: seq<Message>, events: seq<Event>): seq<Message>
    decreases |events|
  {
    if events == [] then msgs else AfterAll(After(msgs, events[0]), events[1..])
  }

  // At most one summary, and it sits right after the head.
  predicate OneSummary(msgs: seq<Message>) {
    forall i :: 0 <= i < |msgs| && IsSummary(msgs[i]) ==> i == HeadLen(msgs)
  }

  lemma {:induction false} ScanLegal(pending: set<string>, msgs: seq<Message>)
    requires Scan(pending, msgs).Some?
    ensures forall m :: m in msgs ==> PartsLegal(m)
    decreases |msgs|
  {
    if msgs != [] {
      ScanLegal(Step(pending, msgs[0]).value, msgs[1..]);
      assert msgs == [msgs[0]] + msgs[1..];
    }
  }

  // In a valid message, dropping reasoning neither makes nor unmakes a summary.
  lemma FilterKeepsSummary(m: Message)
    requires PartsLegal(m)
    ensures IsSummary(FilterMessage(m, DropAll())) <==> IsSummary(m)
  {
    if m.role.User? {
      forall p | p in m.content ensures Stays(p, DropAll()) {
        var i :| 0 <= i < |m.content| && m.content[i] == p;
        assert PartLegal(m.role, m.content[i]);
      }
      FilterPartsMeaning(m.content, DropAll());
    }
  }

  lemma SummaryMessageIsSummary(summary: string)
    ensures IsSummary(SummaryMessage(summary))
    ensures FilterMessage(SummaryMessage(summary), DropAll()) == SummaryMessage(summary)
  {
    FilterPartsMeaning(SummaryMessage(summary).content, DropAll());
  }

  // Nothing in a compacted transcript but the insert is a summary.
  lemma KeptSummary(msgs: seq<Message>, s: Span, insert: Message, i: nat)
    requires s.Ordered(msgs) && s.head < s.cut && OneSummary(msgs) && s.head == HeadLen(msgs)
    requires forall k :: s.pin <= k < s.pinEnd ==> IsPrompt(msgs[k])
    requires i < |s.Kept(msgs, [insert])| && i != s.head
    ensures !IsSummary(s.Kept(msgs, [insert])[i])
  {
    var p := s.pinEnd - s.pin;
    var k := if i < s.head then i else if i < s.head + 1 + p then s.pin + (i - s.head - 1)
      else s.cut + (i - s.head - 1 - p);
    assert s.Kept(msgs, [insert])[i] == msgs[k];
  }

  // The first dropped message is the one right after the head, unless that is
  // the in-flight prompt.
  lemma FirstDropped(msgs: seq<Message>, keep: int)
    requires SplitSpan(msgs, keep).Drops()
    ensures
      var s := SplitSpan(msgs, keep);
      s.head < s.cut && (IsSummary(msgs[s.head]) ==> s.Dropped(msgs)[0] == msgs[s.head])
  {
    var s := SplitSpan(msgs, keep);
    PinnedArePrompts(msgs, keep);
    assert s.pin == s.head < s.pinEnd ==> IsPrompt(msgs[s.head]);
  }

  lemma SummarizedHasOneSummary(msgs: seq<Message>, keep: nat, summary: string)
    requires Valid(msgs) && OneSummary(msgs) && SplitSpan(msgs, keep).Drops()
    ensures
      var next := Summarizing(msgs, keep, summary);
      && Valid(next) && OneSummary(next)
      && HeadLen(next) == HeadLen(msgs) < |next| && next[HeadLen(msgs)] == SummaryMessage(summary)
  {
    var s := SplitSpan(msgs, keep);
    var insert := [SummaryMessage(summary)];
    var kept := s.Kept(msgs, insert);
    var next := WithoutReasoning(kept);
    SummaryIsClear(summary);
    CompactionKeepsValid(msgs, keep, insert);
    PinnedArePrompts(msgs, keep);
    FirstDropped(msgs, keep);
    CutTurns(msgs, s.head, keep);
    SecondCut(msgs, s, insert, keep);
    SummaryMessageIsSummary(summary);
    assert kept[s.head] == SummaryMessage(summary);
    ScanLegal({}, kept);
    forall i | 0 <= i < |next| && i != s.head ensures !IsSummary(next[i]) {
      assert kept[i] in kept;
      FilterKeepsSummary(kept[i]);
      KeptSummary(msgs, s, insert[0], i);
    }
  }

  lemma AppendKeepsOneSummary(msgs: seq<Message>, more: seq<Message>)
    requires OneSummary(msgs) && forall m :: m in more ==> !IsSummary(m)
    ensures OneSummary(msgs + more)
  {
    var all := msgs + more;
    forall i | 0 <= i < |all| ensures IsSummary(all[i]) ==> i == HeadLen(all) {
      if i >= |msgs| {
        assert all[i] in more;
      } else if IsSummary(all[i]) {
        assert msgs[i].role.User?;
        HeadLenPrefix(msgs, all, 0);
      }
    }
  }

  // Over any sequence of appended turns and Summarize compactions, from a
  // valid transcript with no summary: always valid, never more than one
  // summary, and that right after the head.
  lemma {:induction false} SummariesRoll(msgs: seq<Message>, events: seq<Event>)
    requires Valid(msgs) && OneSummary(msgs) && AllowedRun(msgs, events)
    ensures Valid(AfterAll(msgs, events)) && OneSummary(AfterAll(msgs, events))
    decreases |events|
  {
    if events != [] {
      match events[0]
      case Append(more) =>
        AppendKeepsOneSummary(msgs, more);
        SummariesRoll(After(msgs, events[0]), events[1..]);
      case Summarized(keep, summary) =>
        if SplitSpan(msgs, keep).Drops() {
          SummarizedHasOneSummary(msgs, keep, summary);
        }
        SummariesRoll(After(msgs, events[0]), events[1..]);
    }
  }

  // Whenever a compaction drops anything, the summary in place is dropped
  // first, so the next summary replaces it.
  lemma SummaryIsAmongDropped(start: seq<Message>, events: seq<Event>, keep: nat)
    requires Valid(start) && (forall m :: m in start ==> !IsSummary(m)) && AllowedRun(start, events)
    ensures
      var msgs := AfterAll(start, events);
      var s := SplitSpan(msgs, keep);
      s.Drops() ==> forall i :: 0 <= i < |msgs| && IsSummary(msgs[i]) ==> s.Dropped(msgs)[0] == msgs[i]
  {
    assert OneSummary(start);
    SummariesRoll(start, events);
    var msgs := AfterAll(start, events);
    if SplitSpan(msgs, keep).Drops() {
      FirstDropped(msgs, keep);
      PinnedArePrompts(msgs, keep);
    }
  }

  // ---------- The two compactors ----------

  datatype CompactReason = BeforeTurn | Overflow

  datatype CompactInput = CompactInput(reason: CompactReason, messages: seq<Message>, lastUsage: Usage)

  function Due(input: CompactInput, atTokens: nat): bool {
    input.reason.Overflow? || (atTokens > 0 && input.lastUsage.inputTokens + input.lastUsage.outputTokens >= atTokens)
  }

  method KeepLast(turns: nat, atTokens: nat, input: CompactInput) returns (res: Option<seq<Message>>)
    ensures res.Some? <==> Due(input, atTokens) && SplitSpan(input.messages, turns).Drops()
    ensures res.Some? ==> res.value == WithoutReasoning(SplitSpan(input.messages, turns).Kept(input.messages, []))
    ensures res.Some? && Valid(input.messages) ==> Valid(res.value)
    ensures res.Some? ==> (EndsWithAssistant(res.value) <==> EndsWithAssistant(input.messages) && turns > 0)
  {
    if !Due(input, atTokens) {
      return None;
    }
    var s := Split(input.messages, turns);
    if !s.Drops() {
      return None;
    }
    var out := FilterReasoning(s.Kept(input.messages, []), DropAll());
    CompactionEnd(input.messages, turns, []);
    if Valid(input.messages) {
      CompactionKeepsValid(input.messages, turns, []);
    }
    return Some(out);
  }

  // The summarizer's answer: None when it failed, else its trimmed text.
  datatype SummarizeResult = NoChange | Summary(messages: seq<Message>) | SummarizerFailed | SummarizerEmpty

  method Summarize(keepTurns: nat, atTokens: nat, input: CompactInput, answer: Option<string>)
    returns (res: SummarizeResult)
    ensures res.NoChange? <==> !(Due(input, atTokens) && SplitSpan(input.messages, keepTurns).Drops())
    ensures res.SummarizerFailed? ==> answer.None?
    ensures res.SummarizerEmpty? ==> answer == Some("")
    ensures res.Summary? ==>
              answer.Some? && answer.value != "" && res.messages == Summarizing(input.messages, keepTurns, answer.value)
    ensures res.Summary? && Valid(input.messages) ==> Valid(res.messages)
    ensures res.Summary? ==> (EndsWithAssistant(res.messages) <==> EndsWithAssistant(input.messages) && keepTurns > 0)
  {
    if !Due(input, atTokens) {
      return NoChange;
    }
    var s := Split(input.messages, keepTurns);
    if !s.Drops() {
      return NoChange;
    }
    if answer.None? {
      return SummarizerFailed;
    }
    if answer.value == "" {
      return SummarizerEmpty;
    }
    var insert := [SummaryMessage(answer.value)];
    var out := FilterReasoning(s.Kept(input.messages, insert), DropAll());
    SummaryIsClear(answer.value);
    CompactionEnd(input.messages, keepTurns, insert);
    if Valid(input.messages) {
      CompactionKeepsValid(input.messages, keepTurns, insert);
    }
    return Summary(out);
  }
}
