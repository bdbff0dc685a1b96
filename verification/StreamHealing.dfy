/**
 `StreamBuffer` of src/discord/bot.rs: streamed answers put together from deltas that may be lost,
 repeated or late, and healed by the completions that carry the full text.
 */
module StreamHealing {
  import opened Wrappers

  datatype Segment = Segment(itemId: string, text: string, completed: bool)

  /** The first segment of the item. */
  function Find(segments: seq<Segment>, itemId: string): (found: Option<nat>)
    ensures found.Some? ==> found.value < |segments| && segments[found.value].itemId == itemId
    ensures found.None? ==> forall i :: 0 <= i < |segments| ==> segments[i].itemId != itemId
  {
    if segments == [] then None
    else if segments[0].itemId == itemId then Some(0)
    else
      var rest := Find(segments[1..], itemId);
      if rest.None? then None else Some(rest.value + 1)
  }

  /** The first segment that came without an item id and was not completed. */
  function FindAnonymous(segments: seq<Segment>): (found: Option<nat>)
    ensures found.Some? ==> found.value < |segments| && segments[found.value].itemId == "" && !segments[found.value].completed
    ensures found.None? ==> forall i :: 0 <= i < |segments| ==> segments[i].itemId != "" || segments[i].completed
  {
    if segments == [] then None
    else if segments[0].itemId == "" && !segments[0].completed then Some(0)
    else
      var rest := FindAnonymous(segments[1..]);
      if rest.None? then None else Some(rest.value + 1)
  }

  function WithDelta(segments: seq<Segment>, itemId: string, delta: string): seq<Segment> {
    var at := Find(segments, itemId);
    if delta == "" then segments
    else if at.None? then segments + [Segment(itemId, delta, false)]
    else if segments[at.value].completed then segments
    else segments[at.value := Segment(itemId, segments[at.value].text + delta, false)]
  }

  function WithCompletion(segments: seq<Segment>, itemId: string, text: string): seq<Segment> {
    var done, at := Segment(itemId, text, true), Find(segments, itemId);
    if at.Some? then segments[at.value := done]
    else if FindAnonymous(segments).Some? then segments[FindAnonymous(segments).value := done]
    else segments + [done]
  }

  // ---- the rendered answer -------------------------------------------------------------------

  function Texts(segments: seq<Segment>): seq<string> {
    seq(|segments|, i requires 0 <= i < |segments| => segments[i].text)
  }

  function NonEmpty(texts: seq<string>): seq<string> {
    if texts == [] then []
    else NonEmpty(texts[..|texts| - 1]) + if texts[|texts| - 1] == "" then [] else [texts[|texts| - 1]]
  }

  /** Paragraphs with a blank line between them. */
  function Paragraphs(texts: seq<string>): string {
    if texts == [] then ""
    else if |texts| == 1 then texts[0]
    else Paragraphs(texts[..|texts| - 1]) + "\n\n" + texts[|texts| - 1]
  }

  lemma NextText(texts: seq<string>, i: nat)
    requires i < |texts|
    ensures NonEmpty(texts[..i + 1]) == if texts[i] == "" then NonEmpty(texts[..i]) else NonEmpty(texts[..i]) + [texts[i]]
  {
    assert texts[..i + 1][..i] == texts[..i];
  }

  lemma NextParagraph(before: seq<string>, text: string)
    ensures Paragraphs(before + [text]) == if before == [] then text else Paragraphs(before) + "\n\n" + text
  {
    assert (before + [text])[..|before|] == before;
  }

  /** The loop's text so far, and whether it is empty. */
  predicate WrittenSoFar(out: string, texts: seq<string>) {
    out == Paragraphs(NonEmpty(texts)) && (out == "" <==> NonEmpty(texts) == [])
  }

  lemma NextWritten(out: string, texts: seq<string>, i: nat)
    requires i < |texts| && WrittenSoFar(out, texts[..i])
    ensures WrittenSoFar(if texts[i] == "" then out else if out != "" then out + "\n\n" + texts[i] else out + texts[i], texts[..i + 1])
  {
    NextText(texts, i);
    NextParagraph(NonEmpty(texts[..i]), texts[i]);
  }

  function Rendered(segments: seq<Segment>): string {
    Paragraphs(NonEmpty(Texts(segments)))
  }

  class StreamBuffer {
    var segments: seq<Segment>
    var dirty: bool

    constructor ()
      ensures segments == [] && !dirty
    {
      segments, dirty := [], false;
    }

    method AppendDelta(itemId: string, delta: string)
      modifies this
      ensures segments == WithDelta(old(segments), itemId, delta)
      ensures dirty <==> old(dirty) || segments != old(segments)
      ensures Rendered(segments) != Rendered(old(segments)) ==> dirty
    {
      if delta == "" {
        return;
      }
      var at := Find(segments, itemId);
      if at.None? {
        segments, dirty := segments + [Segment(itemId, delta, false)], true;
      } else if !segments[at.value].completed {
        segments := segments[at.value := segments[at.value].(text := segments[at.value].text + delta)];
        dirty := true;
        assert |segments[at.value].text| != |old(segments)[at.value].text|;
      }
    }

    method CompleteItem(itemId: string, text: string)
      modifies this
      ensures segments == WithCompletion(old(segments), itemId, text)
      ensures dirty <==> old(dirty) || Find(old(segments), itemId).None? || Texts(segments) != Texts(old(segments))
      ensures Rendered(segments) != Rendered(old(segments)) ==> dirty
    {
      var at := Find(segments, itemId);
      if at.Some? {
        var segment := segments[at.value];
        if segment.text != text {
          segment, dirty := segment.(text := text), true;
        }
        segments := segments[at.value := segment.(completed := true)];
        assert Texts(segments)[at.value] == text && Texts(old(segments))[at.value] == old(segments)[at.value].text;
        assert old(segments)[at.value].text == text ==> Texts(segments) == Texts(old(segments));
        return;
      }
      var anonymous := FindAnonymous(segments);
      if anonymous.Some? {
        segments := segments[anonymous.value := Segment(itemId, text, true)];
      } else {
        segments := segments + [Segment(itemId, text, true)];
      }
      dirty := true;
    }

    method Text() returns (out: string)
      ensures out == Rendered(segments)
    {
      out := "";
      var texts := Texts(segments);
      for i := 0 to |segments|
        invariant WrittenSoFar(out, texts[..i])
      {
        NextWritten(out, texts, i);
        if segments[i].text != "" {
          if out != "" {
            out := out + "\n\n";
          }
          out := out + segments[i].text;
        }
      }
      assert texts[..|texts|] == texts;
    }
  }

  // ---- runs ----------------------------------------------------------------------------------

  datatype Event = Delta(itemId: string, delta: string) | Completion(itemId: string, text: string)

  function Step(segments: seq<Segment>, event: Event): seq<Segment> {
    match event
    case Delta(itemId, delta) => WithDelta(segments, itemId, delta)
    case Completion(itemId, text) => WithCompletion(segments, itemId, text)
  }

  function After(events: seq<Event>): seq<Segment> {
    if events == [] then [] else Step(After(events[..|events| - 1]), events[|events| - 1])
  }

  /** A buffer fed with a run of events, and the answer it then shows. */
  method Play(events: seq<Event>) returns (buffer: StreamBuffer, answer: string)
    ensures buffer.segments == After(events) && answer == Rendered(After(events))
    ensures answer != "" ==> buffer.dirty
  {
    buffer := new StreamBuffer();
    for n := 0 to |events|
      invariant fresh(buffer) && buffer.segments == After(events[..n])
      invariant Rendered(buffer.segments) != "" ==> buffer.dirty
    {
      assert events[..n + 1][..n] == events[..n];
      match events[n] {
        case Delta(itemId, delta) => buffer.AppendDelta(itemId, delta);
        case Completion(itemId, text) => buffer.CompleteItem(itemId, text);
      }
    }
    assert events[..|events|] == events;
    answer := buffer.Text();
  }

  predicate Distinct(ids: seq<string>) {
    forall i, j :: 0 <= i < j < |ids| ==> ids[i] != ids[j]
  }

  function Ids(segments: seq<Segment>): seq<string> {
    seq(|segments|, i requires 0 <= i < |segments| => segments[i].itemId)
  }

  /** In every run, with item ids or without, no two segments are of the same item. */
  lemma {:induction false} IdsAreDistinct(events: seq<Event>)
    ensures Distinct(Ids(After(events)))
  {
    if events != [] {
      IdsAreDistinct(events[..|events| - 1]);
      var before := After(events[..|events| - 1]);
      assert forall i :: 0 <= i < |before| ==> Ids(before)[i] == before[i].itemId;
    }
  }

  /** The event makes an item known: an empty delta does not. */
  predicate Shows(event: Event) {
    event.Delta? ==> event.delta != ""
  }

  /** The items in the order of their first appearance. */
  function Order(events: seq<Event>): (ids: seq<string>)
    ensures Distinct(ids)
  {
    if events == [] then []
    else
      var ids, last := Order(events[..|events| - 1]), events[|events| - 1];
      if Shows(last) && last.itemId !in ids then ids + [last.itemId] else ids
  }

  /** The text of the item's last completion. */
  function LastCompletion(events: seq<Event>, itemId: string): Option<string> {
    if events == [] then None
    else
      var last := events[|events| - 1];
      if last.Completion? && last.itemId == itemId then Some(last.text) else LastCompletion(events[..|events| - 1], itemId)
  }

  function AllDeltas(events: seq<Event>, itemId: string): string {
    if events == [] then ""
    else
      var last := events[|events| - 1];
      AllDeltas(events[..|events| - 1], itemId) + if last.Delta? && last.itemId == itemId then last.delta else ""
  }

  /** What a run makes of one item: the last completion, and only without one the deltas as they came. */
  function Summary(events: seq<Event>, itemId: string): Segment {
    var completion := LastCompletion(events, itemId);
    if completion.Some? then Segment(itemId, completion.value, true) else Segment(itemId, AllDeltas(events, itemId), false)
  }

  predicate Named(events: seq<Event>) {
    forall i :: 0 <= i < |events| ==> events[i].itemId != ""
  }

  lemma {:induction false} FindInOrder(segments: seq<Segment>, i: nat)
    requires i < |segments| && Distinct(Ids(segments))
    ensures Find(segments, segments[i].itemId) == Some(i)
  {
    var at := Find(segments, segments[i].itemId);
    assert at.Some?;
    assert Ids(segments)[at.value] == Ids(segments)[i];
  }

  lemma {:induction false} UnseenItems(events: seq<Event>, itemId: string)
    requires itemId !in Order(events)
    ensures LastCompletion(events, itemId).None? && AllDeltas(events, itemId) == ""
  {
    if events != [] {
      UnseenItems(events[..|events| - 1], itemId);
    }
  }

  lemma {:induction false} OrderIsNamed(events: seq<Event>)
    requires Named(events)
    ensures "" !in Order(events)
  {
    if events != [] {
      OrderIsNamed(events[..|events| - 1]);
    }
  }

  lemma OtherSummaries(events: seq<Event>, itemId: string)
    requires events != [] && (events[|events| - 1].itemId != itemId || !Shows(events[|events| - 1]))
    ensures Summary(events, itemId) == Summary(events[..|events| - 1], itemId)
  {
    var deltas := AllDeltas(events[..|events| - 1], itemId);
    assert deltas + "" == deltas;
  }

  lemma KnownItem(events: seq<Event>, before: seq<Segment>, k: nat)
    requires events != [] && Shows(events[|events| - 1]) && k < |before| && Distinct(Ids(before))
    requires before[k] == Summary(events[..|events| - 1], events[|events| - 1].itemId)
    ensures Step(before, events[|events| - 1]) == before[k := Summary(events, events[|events| - 1].itemId)]
  {
    FindInOrder(before, k);
  }

  lemma NewItem(events: seq<Event>, before: seq<Segment>)
    requires events != [] && Shows(events[|events| - 1]) && events[|events| - 1].itemId !in Order(events[..|events| - 1])
    requires Find(before, events[|events| - 1].itemId).None? && FindAnonymous(before).None?
    ensures Step(before, events[|events| - 1]) == before + [Summary(events, events[|events| - 1].itemId)]
  {
    var last := events[|events| - 1];
    UnseenItems(events[..|events| - 1], last.itemId);
    if last.Delta? {
      assert "" + last.delta == last.delta;
    }
  }

  ghost predicate IsSummarized(segments: seq<Segment>, events: seq<Event>) {
    && |segments| == |Order(events)|
    && forall i :: 0 <= i < |segments| ==> segments[i] == Summary(events, Order(events)[i])
  }

  /** With item ids on every event the buffer is exactly one summary per item, in order of appearance. */
  lemma {:induction false} BufferIsItsSummaries(events: seq<Event>)
    requires Named(events)
    ensures IsSummarized(After(events), events)
  {
    if events != [] {
      var n := |events| - 1;
      var earlier, last := events[..n], events[n];
      var before, order := After(earlier), Order(earlier);
      BufferIsItsSummaries(earlier);
      assert Ids(before) == order;
      OrderIsNamed(earlier);
      forall i | 0 <= i < |order| && (order[i] != last.itemId || !Shows(last)) ensures Summary(events, order[i]) == before[i] {
        OtherSummaries(events, order[i]);
      }
      if Shows(last) {
        if last.itemId in order {
          var k :| 0 <= k < |order| && order[k] == last.itemId;
          KnownItem(events, before, k);
        } else {
          NothingAnonymous(before, last.itemId);
          NewItem(events, before);
        }
      }
    }
  }

  lemma NothingAnonymous(segments: seq<Segment>, itemId: string)
    requires "" !in Ids(segments) && itemId !in Ids(segments)
    ensures FindAnonymous(segments).None? && Find(segments, itemId).None?
  {
    assert forall i :: 0 <= i < |segments| ==> Ids(segments)[i] == segments[i].itemId;
  }

  predicate AllCompleted(events: seq<Event>) {
    forall id :: id in Order(events) ==> LastCompletion(events, id).Some?
  }

  /**
   Healing: once every item seen has been completed, the answer depends only on the order of first
   appearance and the last completions, whatever deltas were lost, repeated or late.
   */
  lemma {:induction false} CompletionsHeal(events: seq<Event>, others: seq<Event>)
    requires Named(events) && Named(others) && AllCompleted(events)
    requires Order(events) == Order(others)
    requires forall id :: id in Order(events) ==> LastCompletion(events, id) == LastCompletion(others, id)
    ensures Rendered(After(events)) == Rendered(After(others))
  {
    BufferIsItsSummaries(events);
    BufferIsItsSummaries(others);
    assert After(events) == After(others);
  }

  // ---- items that are not named yet --------------------------------------------------------------

  lemma AfterOneMore(events: seq<Event>, event: Event)
    ensures After(events + [event]) == Step(After(events), event)
  {
    assert (events + [event])[..|events|] == events;
  }

  /** A completion of an item not seen before takes the place of the open text that came without an id. */
  lemma CompletionAdopts(events: seq<Event>, itemId: string, text: string, a: nat)
    requires a < |After(events)| && After(events)[a].itemId == "" && !After(events)[a].completed
    requires forall i :: 0 <= i < |After(events)| ==> After(events)[i].itemId != itemId
    ensures After(events + [Completion(itemId, text)]) == After(events)[a := Segment(itemId, text, true)]
  {
    var before := After(events);
    AfterOneMore(events, Completion(itemId, text));
    IdsAreDistinct(events);
    var b := FindAnonymous(before).value;
    assert Ids(before)[a] == "" && Ids(before)[b] == "";
  }

  /** Text that came without an id and then its completion: the answer shows the completed text, once. */
  lemma UnnamedTextIsShownOnce(delta: string, itemId: string, text: string)
    requires delta != "" && itemId != ""
    ensures Rendered(After([Delta("", delta), Completion(itemId, text)])) == text
  {
    var first := [Delta("", delta)];
    AfterOneMore([], first[0]);
    assert [] + first == first && After(first) == [Segment("", delta, false)];
    CompletionAdopts(first, itemId, text, 0);
    assert first + [Completion(itemId, text)] == [Delta("", delta), Completion(itemId, text)];
    var segments := [Segment(itemId, text, true)];
    assert After([Delta("", delta), Completion(itemId, text)]) == segments;
    OneParagraph(segments[0]);
  }

  lemma OneParagraph(segment: Segment)
    ensures Rendered([segment]) == segment.text
  {
    var text := segment.text;
    assert Texts([segment]) == [text] && [text][..0] == [];
    assert NonEmpty([text]) == if text == "" then [] else [text] by {
      NextText([text], 0);
      assert [text][..1] == [text] && NonEmpty([text][..0]) == [];
    }
  }
}
