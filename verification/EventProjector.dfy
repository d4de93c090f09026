/**
 * The text deltas of a durable run (apps/agent-runtime-durable/src/events.ts, `DurableEventProjector`),
 * before redaction and truncation.
 */
module EventProjector {
  import opened Wrappers

  datatype Change = TextChange(delta: string) | OtherChange

  /** `MessageEnd` carries the text of the committed assistant message, if the entry has one. */
  datatype Event =
    | MessageStart(assistant: bool, text: string)
    | MessageUpdate(changes: seq<Change>)
    | MessageEnd(committed: Option<string>)
    | OtherEvent(projected: seq<string>)

  datatype SafeEvent = TextDelta(text: string) | Plain(kind: string)

  function Joined(changes: seq<Change>): string {
    if changes == [] then ""
    else
      Joined(changes[..|changes| - 1])
        + (if changes[|changes| - 1].TextChange? then changes[|changes| - 1].delta else "")
  }

  predicate StartsWith(text: string, prefix: string) {
    |prefix| <= |text| && text[..|prefix|] == prefix
  }

  function Delta(text: string): seq<SafeEvent> {
    [TextDelta(text)]
  }

  function Plains(kinds: seq<string>): seq<SafeEvent> {
    seq(|kinds|, i requires 0 <= i < |kinds| => Plain(kinds[i]))
  }

  /** What the text adds to what was sent, and what has been sent then. */
  function CatchUp(streamed: string, text: string): (string, seq<SafeEvent>) {
    if text == "" || !StartsWith(text, streamed) || |text| == |streamed| then (streamed, [])
    else (text, Delta(text[|streamed|..]))
  }

  function Project(streamed: string, e: Event): (string, seq<SafeEvent>) {
    match e
    case MessageStart(assistant, text) => if assistant then CatchUp("", text) else (streamed, [])
    case MessageUpdate(changes) =>
      var text := Joined(changes);
      if text == "" then (streamed, []) else (streamed + text, Delta(text))
    case MessageEnd(committed) =>
      if committed.None? then (streamed, []) else ("", CatchUp(streamed, committed.value).1)
    case OtherEvent(projected) => (streamed, Plains(projected))
  }

  function ProjectAll(streamed: string, events: seq<Event>): (string, seq<SafeEvent>) {
    if events == [] then (streamed, [])
    else
      var (before, sent) := ProjectAll(streamed, events[..|events| - 1]);
      var (after, more) := Project(before, events[|events| - 1]);
      (after, sent + more)
  }

  /** The text a caller puts together from the deltas. */
  function Text(events: seq<SafeEvent>): string {
    if events == [] then ""
    else Text(events[..|events| - 1]) + (if events[|events| - 1].TextDelta? then events[|events| - 1].text else "")
  }

  // ---------------------------------------------------------------- runs

  /** Events that say nothing of an assistant's text. */
  predicate IsNoise(e: Event) {
    || (e.MessageStart? && !e.assistant)
    || e == MessageEnd(None)
    || e.OtherEvent?
  }

  /** One assistant message: what precedes it, its first text, its progress, and what is committed. */
  datatype Message = Message(before: seq<Event>, start: string, progress: seq<Event>, committed: string)

  predicate IsMessage(m: Message) {
    && (forall i | 0 <= i < |m.before| :: IsNoise(m.before[i]))
    && (forall i | 0 <= i < |m.progress| :: IsNoise(m.progress[i]) || m.progress[i].MessageUpdate?)
  }

  function MessageEvents(m: Message): seq<Event> {
    m.before + [MessageStart(true, m.start)] + m.progress + [MessageEnd(Some(m.committed))]
  }

  function RunEvents(messages: seq<Message>): seq<Event> {
    if messages == [] then [] else RunEvents(messages[..|messages| - 1]) + MessageEvents(messages[|messages| - 1])
  }

  function Deltas(events: seq<Event>): string {
    if events == [] then ""
    else
      Deltas(events[..|events| - 1])
        + (if events[|events| - 1].MessageUpdate? then Joined(events[|events| - 1].changes) else "")
  }

  /** The first text and the progress are a beginning of what is committed. */
  predicate Grows(m: Message) {
    StartsWith(m.committed, m.start + Deltas(m.progress))
  }

  /** What a caller has of a message. */
  function Shown(m: Message): string {
    if Grows(m) then m.committed else m.start + Deltas(m.progress)
  }

  function AllShown(messages: seq<Message>): string {
    if messages == [] then "" else AllShown(messages[..|messages| - 1]) + Shown(messages[|messages| - 1])
  }

  function Committed(messages: seq<Message>): string {
    if messages == [] then "" else Committed(messages[..|messages| - 1]) + messages[|messages| - 1].committed
  }

  // ---------------------------------------------------------------- sequences of events

  lemma TextLast(a: seq<SafeEvent>, e: SafeEvent)
    ensures Text(a + [e]) == Text(a) + (if e.TextDelta? then e.text else "")
  {
    assert (a + [e])[..|a|] == a;
  }

  lemma LastOnto<T>(a: seq<T>, b: seq<T>)
    requires b != []
    ensures b == b[..|b| - 1] + [b[|b| - 1]] && a + b == (a + b[..|b| - 1]) + [b[|b| - 1]]
  {}

  lemma {:induction false} TextAppend(a: seq<SafeEvent>, b: seq<SafeEvent>)
    ensures Text(a + b) == Text(a) + Text(b)
  {
    if b == [] {
      assert a + b == a;
    } else {
      var front, last := b[..|b| - 1], b[|b| - 1];
      LastOnto(a, b);
      TextAppend(a, front);
      TextLast(a + front, last);
      TextLast(front, last);
    }
  }

  lemma {:induction false} ProjectAppend(streamed: string, a: seq<Event>, b: seq<Event>)
    ensures var (middle, first) := ProjectAll(streamed, a);
      var (end, second) := ProjectAll(middle, b);
      ProjectAll(streamed, a + b) == (end, first + second)
  {
    if b == [] {
      assert a + b == a;
      assert ProjectAll(streamed, a).1 + [] == ProjectAll(streamed, a).1;
    } else {
      var front, last := b[..|b| - 1], b[|b| - 1];
      ProjectAppend(streamed, a, front);
      assert (a + b)[..|a + b| - 1] == a + front && (a + b)[|a + b| - 1] == last;
      var (middle, first) := ProjectAll(streamed, a);
      var (before, second) := ProjectAll(middle, front);
      Associate(first, second, Project(before, last).1);
    }
  }

  lemma Associate<T>(a: seq<T>, b: seq<T>, c: seq<T>)
    ensures (a + b) + c == a + (b + c)
  {}

  lemma ProjectOne(streamed: string, e: Event)
    ensures ProjectAll(streamed, [e]) == Project(streamed, e)
  {
    assert ProjectAll(streamed, [e][..0]) == (streamed, []);
    assert [] + Project(streamed, e).1 == Project(streamed, e).1;
  }

  lemma {:induction false} PlainText(kinds: seq<string>)
    ensures Text(Plains(kinds)) == ""
  {
    if kinds != [] {
      PlainText(kinds[..|kinds| - 1]);
      assert Plains(kinds)[..|kinds| - 1] == Plains(kinds[..|kinds| - 1]);
    }
  }

  lemma DeltaText(text: string)
    ensures Text(Delta(text)) == text
  {
    assert Delta(text)[..0] == [];
    assert Text([]) + text == text;
  }

  lemma ProgressStep(streamed: string, e: Event)
    requires IsNoise(e) || e.MessageUpdate?
    ensures var (end, sent) := Project(streamed, e);
      var delta := if e.MessageUpdate? then Joined(e.changes) else "";
      end == streamed + delta && Text(sent) == delta
  {
    assert streamed + "" == streamed;
    if e.MessageUpdate? {
      DeltaText(Joined(e.changes));
    } else if e.OtherEvent? {
      PlainText(e.projected);
    }
  }

  /** Progress events send their deltas, and nothing else that is text. */
  lemma {:induction false} ProgressText(streamed: string, events: seq<Event>)
    requires forall i | 0 <= i < |events| :: IsNoise(events[i]) || events[i].MessageUpdate?
    ensures var (end, sent) := ProjectAll(streamed, events);
      end == streamed + Deltas(events) && Text(sent) == Deltas(events)
  {
    if events == [] {
      assert streamed + "" == streamed;
    } else {
      var front, last := events[..|events| - 1], events[|events| - 1];
      ProgressText(streamed, front);
      var (before, sent) := ProjectAll(streamed, front);
      ProgressStep(before, last);
      TextAppend(sent, Project(before, last).1);
      Associate(streamed, Deltas(front), if last.MessageUpdate? then Joined(last.changes) else "");
    }
  }

  lemma {:induction false} NoiseHasNoDeltas(events: seq<Event>)
    requires forall i | 0 <= i < |events| :: IsNoise(events[i])
    ensures Deltas(events) == ""
  {
    if events != [] {
      NoiseHasNoDeltas(events[..|events| - 1]);
    }
  }

  /** The first text of a message is sent whole. */
  lemma StartText(streamed: string, text: string)
    ensures var (end, sent) := Project(streamed, MessageStart(true, text)); end == text && Text(sent) == text
  {
    if text != "" {
      assert text[|""|..] == text;
      DeltaText(text);
    }
  }

  /** The end of a message sends what is missing, if the text sent is a beginning of it. */
  lemma EndText(streamed: string, committed: string)
    ensures var (end, sent) := Project(streamed, MessageEnd(Some(committed)));
      end == "" && streamed + Text(sent) == if StartsWith(committed, streamed) then committed else streamed
  {
    assert streamed + "" == streamed;
    if StartsWith(committed, streamed) {
      assert committed[..|streamed|] + committed[|streamed|..] == committed;
      DeltaText(committed[|streamed|..]);
    }
  }

  // ---------------------------------------------------------------- main results

  lemma MessageText(streamed: string, m: Message)
    requires IsMessage(m)
    ensures var (end, sent) := ProjectAll(streamed, MessageEvents(m)); end == "" && Text(sent) == Shown(m)
  {
    var start, end := [MessageStart(true, m.start)], [MessageEnd(Some(m.committed))];
    ProgressText(streamed, m.before);
    NoiseHasNoDeltas(m.before);
    var (s0, t0) := ProjectAll(streamed, m.before);
    ProjectAppend(streamed, m.before, start);
    ProjectOne(s0, start[0]);
    StartText(s0, m.start);
    var (s1, t1) := Project(s0, start[0]);
    ProjectAppend(streamed, m.before + start, m.progress);
    ProgressText(m.start, m.progress);
    var (s2, t2) := ProjectAll(s1, m.progress);
    ProjectAppend(streamed, m.before + start + m.progress, end);
    ProjectOne(s2, end[0]);
    EndText(s2, m.committed);
    var t3 := Project(s2, end[0]).1;
    TextAppend(t0, t1);
    TextAppend(t0 + t1, t2);
    TextAppend(t0 + t1 + t2, t3);
    assert "" + m.start == m.start;
  }

  /** Over a run, a caller has each message's committed text, or what was streamed where that is no beginning of it. */
  lemma {:induction false} RunText(messages: seq<Message>)
    requires forall i | 0 <= i < |messages| :: IsMessage(messages[i])
    ensures var (end, sent) := ProjectAll("", RunEvents(messages)); end == "" && Text(sent) == AllShown(messages)
  {
    if messages != [] {
      var front, last := messages[..|messages| - 1], messages[|messages| - 1];
      RunText(front);
      ProjectAppend("", RunEvents(front), MessageEvents(last));
      MessageText("", last);
      TextAppend(ProjectAll("", RunEvents(front)).1, ProjectAll("", MessageEvents(last)).1);
    }
  }

  /**
   * Whatever came before it, the deltas sent for a message join to its committed text exactly when its first
   * text and its progress are a beginning of it.
   */
  lemma SentIsCommittedIff(streamed: string, m: Message)
    requires IsMessage(m)
    ensures Text(ProjectAll(streamed, MessageEvents(m)).1) == m.committed <==> Grows(m)
  {
    MessageText(streamed, m);
    var shown := m.start + Deltas(m.progress);
    assert shown[..|shown|] == shown;
  }

  lemma {:induction false} ShownAreCommitted(messages: seq<Message>)
    requires forall i | 0 <= i < |messages| :: Grows(messages[i])
    ensures AllShown(messages) == Committed(messages)
  {
    if messages != [] {
      ShownAreCommitted(messages[..|messages| - 1]);
    }
  }

  /** However progress was committed, callers get the committed texts, in order and once. */
  lemma StreamingIndependence(messages: seq<Message>)
    requires forall i | 0 <= i < |messages| :: IsMessage(messages[i]) && Grows(messages[i])
    ensures Text(ProjectAll("", RunEvents(messages)).1) == Committed(messages)
  {
    RunText(messages);
    ShownAreCommitted(messages);
  }

  predicate IsProgress(events: seq<Event>) {
    forall i | 0 <= i < |events| :: IsNoise(events[i]) || events[i].MessageUpdate?
  }

  lemma DropPrefix<T>(a: seq<T>, b: seq<T>, c: seq<T>)
    ensures |a| <= |a + b + c| && (a + b + c)[|a|..] == b + c
  {}

  /**
   * After any events at all, the start of an assistant message and its progress so far: what the projector
   * remembers is the text of the deltas it sent since that start.
   */
  lemma RemembersWhatItSent(before: seq<Event>, start: string, progress: seq<Event>)
    requires IsProgress(progress)
    ensures var n := |ProjectAll("", before).1|;
      var (streamed, sent) := ProjectAll("", before + [MessageStart(true, start)] + progress);
      n <= |sent| && streamed == Text(sent[n..])
  {
    var begun := [MessageStart(true, start)];
    var (s0, t0) := ProjectAll("", before);
    ProjectAppend("", before, begun);
    ProjectOne(s0, begun[0]);
    StartText(s0, start);
    var (s1, t1) := Project(s0, begun[0]);
    ProjectAppend("", before + begun, progress);
    ProgressText(s1, progress);
    var t2 := ProjectAll(s1, progress).1;
    DropPrefix(t0, t1, t2);
    TextAppend(t1, t2);
  }

  lemma NoEmptyDelta(streamed: string, e: Event)
    ensures TextDelta("") !in Project(streamed, e).1
  {}

  /** No delta that is sent is empty, whatever the events. */
  lemma {:induction false} NoEmptyDeltas(streamed: string, events: seq<Event>)
    ensures TextDelta("") !in ProjectAll(streamed, events).1
  {
    if events != [] {
      var front, last := events[..|events| - 1], events[|events| - 1];
      NoEmptyDeltas(streamed, front);
      NoEmptyDelta(ProjectAll(streamed, front).0, last);
    }
  }

  // ---------------------------------------------------------------- what is in an event

  /** The text of an update is that of its text changes, in order, and of nothing else. */
  lemma {:induction false} JoinedIsText(a: seq<Change>, b: seq<Change>, text: string)
    ensures Joined([]) == "" && Joined([OtherChange]) == "" && Joined([TextChange(text)]) == text
    ensures Joined(a + b) == Joined(a) + Joined(b)
    decreases |b|
  {
    assert [TextChange(text)][..0] == [] && [OtherChange][..0] == [];
    if b == [] {
      assert a + b == a;
    } else {
      JoinedIsText(a, b[..|b| - 1], text);
      assert (a + b)[..|a + b| - 1] == a + b[..|b| - 1];
    }
  }

  function Kinds(sent: seq<SafeEvent>): seq<string> {
    if sent == [] then []
    else Kinds(sent[..|sent| - 1]) + (if sent[|sent| - 1].Plain? then [sent[|sent| - 1].kind] else [])
  }

  /** What the events show that are not of an assistant's text. */
  function OthersShown(events: seq<Event>): seq<string> {
    if events == [] then []
    else
      OthersShown(events[..|events| - 1])
        + (if events[|events| - 1].OtherEvent? then events[|events| - 1].projected else [])
  }

  lemma {:induction false} KindsAppend(a: seq<SafeEvent>, b: seq<SafeEvent>)
    ensures Kinds(a + b) == Kinds(a) + Kinds(b)
  {
    if b == [] {
      assert a + b == a;
    } else {
      LastOnto(a, b);
      KindsAppend(a, b[..|b| - 1]);
      assert (a + b)[..|a + b| - 1] == a + b[..|b| - 1];
    }
  }

  lemma {:induction false} KindsOfPlains(kinds: seq<string>)
    ensures Kinds(Plains(kinds)) == kinds
    decreases |kinds|
  {
    if kinds != [] {
      KindsOfPlains(kinds[..|kinds| - 1]);
      assert Plains(kinds)[..|kinds| - 1] == Plains(kinds[..|kinds| - 1]);
      assert kinds == kinds[..|kinds| - 1] + [kinds[|kinds| - 1]];
    }
  }

  /** Whatever happens with the text, every other event is passed on with what it shows, in order. */
  lemma {:induction false} OthersPass(streamed: string, events: seq<Event>)
    ensures Kinds(ProjectAll(streamed, events).1) == OthersShown(events)
    decreases |events|
  {
    if events != [] {
      var front, last := events[..|events| - 1], events[|events| - 1];
      OthersPass(streamed, front);
      var (before, sent) := ProjectAll(streamed, front);
      var more := Project(before, last).1;
      KindsAppend(sent, more);
      if last.OtherEvent? {
        KindsOfPlains(last.projected);
      } else {
        assert |more| <= 1;
      }
    }
  }

  // ---------------------------------------------------------------- the object

  class DurableEventProjector {
    var streamed: string

    constructor ()
      ensures streamed == ""
    {
      streamed := "";
    }

    method ProjectEvent(e: Event) returns (sent: seq<SafeEvent>)
      modifies this
      ensures (streamed, sent) == Project(old(streamed), e)
    {
      match e
      case MessageStart(assistant, text) =>
        if !assistant {
          return [];
        }
        streamed := "";
        sent := SendMissing(text);
      case MessageUpdate(changes) =>
        var text := Joined(changes);
        if text == "" {
          return [];
        }
        streamed := streamed + text;
        sent := Delta(text);
      case MessageEnd(committed) =>
        if committed.None? {
          return [];
        }
        sent := SendMissing(committed.value);
        streamed := "";
      case OtherEvent(projected) =>
        sent := Plains(projected);
    }

    method SendMissing(text: string) returns (sent: seq<SafeEvent>)
      modifies this
      ensures (streamed, sent) == CatchUp(old(streamed), text)
    {
      if text == "" || !StartsWith(text, streamed) || |text| == |streamed| {
        return [];
      }
      sent := Delta(text[|streamed|..]);
      streamed := text;
    }
  }
}
