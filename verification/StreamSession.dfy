/** Which frames a stream session emits, and when its service slot is given back. */
module StreamSession {
  import opened Basics
  import SseReader

  /** What the upstream iterator does next: yields an event, raises, or ends. */
  datatype Upstream = Item(event: Json) | Raises | Ends

  datatype Frame = Chunk(event: Json) | DoneFrame | ErrorFrame

  function Get(e: Json, key: string): Json
    requires e.Obj?
  {
    if key in e.fields then e.fields[key] else Null
  }

  /** A choice's index, defaulting to zero; false equals zero. */
  predicate FirstIndex(choice: Json)
    requires choice.Obj?
  {
    "index" !in choice.fields || choice.fields["index"] in {Number(0.0), Bool(false)}
  }

  function Delta(choice: Json): Json
    requires choice.Obj?
  {
    if "delta" in choice.fields then choice.fields["delta"] else Obj(map[])
  }

  /** A choice the gateway forwards: index zero, plain text only, finished normally or not at all. */
  predicate PlainChoice(choice: Json) {
    && choice.Obj? && FirstIndex(choice)
    && var delta := Delta(choice);
    && delta.Obj?
    && !Truthy(Get(delta, "tool_calls")) && !Truthy(Get(delta, "function_call")) && !Truthy(Get(delta, "refusal"))
    && (Get(delta, "content").Null? || Get(delta, "content").Str?)
    && (Get(choice, "finish_reason").Null? || Get(choice, "finish_reason") == Str("stop"))
  }

  /** An event the gateway forwards, taken alone. */
  predicate PlainEvent(e: Json) {
    && e.Obj? && "error" !in e.fields && Get(e, "choices").Arr?
    && |Get(e, "choices").items| <= 1
    && forall i :: 0 <= i < |Get(e, "choices").items| ==> PlainChoice(Get(e, "choices").items[i])
  }

  predicate HasChoice(e: Json) {
    e.Obj? && Get(e, "choices").Arr? && Get(e, "choices").items != []
  }

  predicate CarriesText(e: Json) {
    HasChoice(e) && var choice := Get(e, "choices").items[0];
    choice.Obj? && Delta(choice).Obj? && Truthy(Get(Delta(choice), "content"))
  }

  predicate Stops(e: Json) {
    HasChoice(e) && var choice := Get(e, "choices").items[0];
    choice.Obj? && Get(choice, "finish_reason") == Str("stop")
  }

  predicate CarriesUsage(e: Json) {
    e.Obj? && !Get(e, "usage").Null?
  }

  /**
   * The grammar of an emitted stream: plain chunks and at most one final frame; no choice after a stop;
   * usage once, and not before the stop; `[DONE]` only after text and a stop.
   */
  ghost predicate Grammatical(frames: seq<Frame>) {
    && (forall i :: 0 <= i < |frames| - 1 ==> frames[i].Chunk?)
    && OnlyPlain(frames) && NoChoiceAfterStop(frames) && UsageOnce(frames) && UsageAfterStop(frames)
    && (frames != [] && frames[|frames| - 1].DoneFrame? ==> SomeText(frames) && SomeStop(frames))
  }

  ghost predicate OnlyPlain(frames: seq<Frame>) {
    forall i :: 0 <= i < |frames| && frames[i].Chunk? ==> PlainEvent(frames[i].event)
  }

  ghost predicate NoChoiceAfterStop(frames: seq<Frame>) {
    forall i, j :: 0 <= i < j < |frames| && IsStop(frames[i]) ==> !(frames[j].Chunk? && HasChoice(frames[j].event))
  }

  ghost predicate UsageOnce(frames: seq<Frame>) {
    forall i, j :: 0 <= i < j < |frames| && IsUsage(frames[i]) ==> !IsUsage(frames[j])
  }

  ghost predicate UsageAfterStop(frames: seq<Frame>) {
    forall j :: 0 <= j < |frames| && IsUsage(frames[j]) ==> SomeStop(frames[..j + 1])
  }

  predicate IsStop(f: Frame) {
    f.Chunk? && Stops(f.event)
  }

  predicate IsUsage(f: Frame) {
    f.Chunk? && CarriesUsage(f.event)
  }

  /** An upstream event is passed on exactly when the stream stays grammatical with it; otherwise the stream fails. */
  ghost function NextAllowed(frames: seq<Frame>, upstream: seq<Upstream>): Frame {
    if upstream == [] || !upstream[0].Item? then ErrorFrame
    else
      var frame := if upstream[0].event == SseReader.DONE_EVENT then DoneFrame else Chunk(upstream[0].event);
      if Grammatical(frames + [frame]) then frame else ErrorFrame
  }

  ghost predicate AllChunks(frames: seq<Frame>) {
    forall i :: 0 <= i < |frames| ==> frames[i].Chunk?
  }

  ghost predicate SomeText(frames: seq<Frame>) {
    exists i :: 0 <= i < |frames| && frames[i].Chunk? && CarriesText(frames[i].event)
  }

  ghost predicate SomeStop(frames: seq<Frame>) {
    exists i :: 0 <= i < |frames| && IsStop(frames[i])
  }

  ghost predicate SomeUsage(frames: seq<Frame>) {
    exists i :: 0 <= i < |frames| && IsUsage(frames[i])
  }

  /** The session's flags remember exactly what the emitted chunks contained. */
  ghost predicate Tracked(frames: seq<Frame>, finished: bool, hasText: bool, usageSeen: bool) {
    (finished <==> SomeStop(frames)) && (hasText <==> SomeText(frames)) && (usageSeen <==> SomeUsage(frames))
  }

  ghost predicate Ended(frames: seq<Frame>, done: bool, failed: bool) {
    && (done <==> frames != [] && frames[|frames| - 1] == DoneFrame)
    && (failed <==> frames != [] && frames[|frames| - 1] == ErrorFrame)
  }

  /** A bounded semaphore. */
  class Slots {
    const capacity: nat
    var free: nat

    constructor (capacity: nat)
      ensures this.capacity == capacity && free == capacity
    {
      this.capacity, free := capacity, capacity;
    }

    method TryAcquire() returns (ok: bool)
      modifies this
      ensures ok <==> old(free) > 0
      ensures free == if ok then old(free) - 1 else old(free)
    {
      ok := free > 0;
      if ok {
        free := free - 1;
      }
    }

    method Release()
      requires free < capacity
      modifies this
      ensures free == old(free) + 1
    {
      free := free + 1;
    }
  }

  class Session {
    const slots: Slots
    var upstream: seq<Upstream>
    var closed: bool
    var done: bool
    var finished: bool
    var hasText: bool
    var usageSeen: bool
    var failed: bool
    var completedCount: nat
    var failedCount: nat
    var cancelledCount: nat
    ghost var frames: seq<Frame>

    /** An unclosed session holds a slot; a closed one has counted exactly one ending. */
    ghost predicate Valid()
      reads this, slots
    {
      && Grammatical(frames) && Tracked(frames, finished, hasText, usageSeen)
      && (!closed ==> slots.free < slots.capacity && !done && !failed && AllChunks(frames))
      && completedCount + failedCount + cancelledCount == (if closed then 1 else 0)
      && completedCount == (if done then 1 else 0) && failedCount == (if failed then 1 else 0)
      && Ended(frames, done, failed)
    }

    /** Takes over the slot its caller acquired. */
    constructor (slots: Slots, upstream: seq<Upstream>)
      requires slots.free < slots.capacity
      ensures Valid() && !closed && frames == [] && this.slots == slots && this.upstream == upstream
    {
      this.slots, this.upstream := slots, upstream;
      closed, done, finished, hasText, usageSeen, failed := false, false, false, false, false, false;
      completedCount, failedCount, cancelledCount := 0, 0, 0;
      frames := [];
    }

    /** One `__next__`: a frame, or None when the session is over. The slot goes back with the final frame. */
    method NextFrame() returns (frame: Option<Frame>)
      requires Valid()
      modifies this, slots
      ensures Valid()
      ensures frame.None? <==> old(closed)
      ensures frames == old(frames) + if frame.Some? then [frame.value] else []
      ensures frame.Some? ==>
        && frame.value == NextAllowed(old(frames), old(upstream))
        && upstream == old(upstream)[if old(upstream) == [] then 0 else 1..]
      ensures closed <==> old(closed) || !frame.value.Chunk?
      ensures slots.free == old(slots.free) + if closed && !old(closed) then 1 else 0
    {
      if !closed && upstream != [] && upstream[0].Item? {
        AcceptanceIsGrammar(frames, upstream[0].event, finished, hasText, usageSeen);
      }
      hide Grammatical, SomeStop, SomeText, SomeUsage, AllChunks, PlainEvent, HasChoice, Stops, CarriesText, CarriesUsage;
      if closed {
        return None;
      }
      var next := Ends;
      if upstream != [] {
        next, upstream := upstream[0], upstream[1..];
      }
      if !next.Item? {
        Fail();
        return Some(ErrorFrame);
      }
      if next.event == SseReader.DONE_EVENT {
        if !finished || !hasText {
          Fail();
          return Some(ErrorFrame);
        }
        Finish();
        return Some(DoneFrame);
      }
      if !PlainEvent(next.event) || (finished && HasChoice(next.event)) {
        Fail();
        return Some(ErrorFrame);
      }
      if CarriesUsage(next.event) && (usageSeen || !(finished || Stops(next.event))) {
        Fail();
        return Some(ErrorFrame);
      }
      Forward(next.event);
      return Some(Chunk(next.event));
    }

    method Forward(e: Json)
      requires Valid() && !closed && PlainEvent(e) && !(finished && HasChoice(e))
      requires CarriesUsage(e) ==> !usageSeen && (finished || Stops(e))
      modifies this`frames, this`hasText, this`finished, this`usageSeen
      ensures Valid() && frames == old(frames) + [Chunk(e)]
    {
      hide Tracked, Ended, Grammatical, SomeStop, SomeText, SomeUsage, AllChunks, PlainEvent, HasChoice, Stops, CarriesText, CarriesUsage;
      ChunkKeepsGrammar(frames, e, finished, hasText, usageSeen);
      if CarriesText(e) {
        hasText := true;
      }
      if Stops(e) {
        finished := true;
      }
      if CarriesUsage(e) {
        usageSeen := true;
      }
      frames := frames + [Chunk(e)];
    }

    method Finish()
      requires Valid() && !closed && finished && hasText
      modifies this`frames, this`done, this`completedCount, this`closed, slots
      ensures Valid() && closed && frames == old(frames) + [DoneFrame] && slots.free == old(slots.free) + 1
    {
      assert AllChunks(frames);
      hide Grammatical, Ended, Tracked, SomeStop, SomeText, SomeUsage, AllChunks;
      FinalFrameKeepsGrammar(frames, DoneFrame, finished, hasText, usageSeen);
      frames := frames + [DoneFrame];
      done, completedCount := true, completedCount + 1;
      Retire();
    }

    method Fail()
      requires Valid() && !closed
      modifies this`frames, this`failed, this`failedCount, this`closed, slots
      ensures Valid() && closed && frames == old(frames) + [ErrorFrame] && slots.free == old(slots.free) + 1
    {
      assert AllChunks(frames);
      hide Grammatical, Ended, Tracked, SomeStop, SomeText, SomeUsage, AllChunks;
      FinalFrameKeepsGrammar(frames, ErrorFrame, finished, hasText, usageSeen);
      frames := frames + [ErrorFrame];
      failed, failedCount := true, failedCount + 1;
      Retire();
    }

    /** The first closing of an open session: marks it closed and releases its slot. */
    method Retire()
      requires !closed && slots.free < slots.capacity
      modifies this`closed, slots
      ensures closed && slots.free == old(slots.free) + 1
    {
      closed := true;
      slots.Release();
    }

    /** Closing: the first time counts a cancellation and gives the slot back, later times do nothing. */
    method Close()
      requires Valid()
      modifies this, slots
      ensures Valid() && closed && frames == old(frames)
      ensures slots.free == old(slots.free) + if old(closed) then 0 else 1
      ensures cancelledCount == old(cancelledCount) + if old(closed) then 0 else 1
    {
      if closed {
        return;
      }
      cancelledCount := cancelledCount + 1;
      Retire();
    }
  }

  /** Adding a frame to a run of chunks keeps the pairwise rules if it keeps them with every earlier chunk. */
  lemma PairwiseExtend(frames: seq<Frame>, f: Frame)
    requires NoChoiceAfterStop(frames) && UsageOnce(frames) && OnlyPlain(frames)
    requires f.Chunk? ==> PlainEvent(f.event) && !(SomeStop(frames) && HasChoice(f.event))
    requires IsUsage(f) ==> !SomeUsage(frames)
    ensures OnlyPlain(frames + [f]) && NoChoiceAfterStop(frames + [f]) && UsageOnce(frames + [f])
  {
    hide PlainEvent, HasChoice, IsStop, IsUsage;
    var next := frames + [f];
    assert next[|frames|] == f;
    assert forall i :: 0 <= i < |frames| ==> next[i] == frames[i];
  }

  lemma UsageExtend(frames: seq<Frame>, f: Frame)
    requires UsageAfterStop(frames) && (IsUsage(f) ==> SomeStop(frames) || IsStop(f))
    ensures UsageAfterStop(frames + [f])
  {
    var next := frames + [f];
    ExtendSome(frames, f);
    hide IsStop, IsUsage, SomeStop;
    forall j | 0 <= j < |next| && IsUsage(next[j])
      ensures SomeStop(next[..j + 1])
    {
      if j < |frames| {
        assert next[..j + 1] == frames[..j + 1] && next[j] == frames[j];
      } else {
        assert next[..j + 1] == next;
      }
    }
  }

  lemma ExtendSome(frames: seq<Frame>, f: Frame)
    ensures var next := frames + [f];
      && (SomeStop(next) <==> SomeStop(frames) || IsStop(f))
      && (SomeText(next) <==> SomeText(frames) || (f.Chunk? && CarriesText(f.event)))
      && (SomeUsage(next) <==> SomeUsage(frames) || IsUsage(f))
      && (AllChunks(next) <==> AllChunks(frames) && f.Chunk?)
  {
    hide IsStop, CarriesText, IsUsage;
    var next := frames + [f];
    assert next[|frames|] == f;
    assert forall i :: 0 <= i < |frames| ==> next[i] == frames[i];
  }

  lemma ChunkKeepsGrammar(frames: seq<Frame>, e: Json, finished: bool, hasText: bool, usageSeen: bool)
    requires Grammatical(frames) && AllChunks(frames) && Tracked(frames, finished, hasText, usageSeen)
    requires PlainEvent(e) && !(finished && HasChoice(e))
    requires CarriesUsage(e) ==> !usageSeen && (finished || Stops(e))
    ensures var next := frames + [Chunk(e)];
      && Grammatical(next) && AllChunks(next)
      && Tracked(next, finished || Stops(e), hasText || CarriesText(e), usageSeen || CarriesUsage(e))
      && Ended(next, false, false)
  {
    PairwiseExtend(frames, Chunk(e));
    UsageExtend(frames, Chunk(e));
    ExtendSome(frames, Chunk(e));
    hide PlainEvent, HasChoice, Stops, CarriesText, CarriesUsage;
    hide OnlyPlain, NoChoiceAfterStop, UsageOnce, UsageAfterStop, SomeStop, SomeUsage, SomeText;
  }

  lemma FinalFrameKeepsGrammar(frames: seq<Frame>, f: Frame, finished: bool, hasText: bool, usageSeen: bool)
    requires Grammatical(frames) && AllChunks(frames) && Tracked(frames, finished, hasText, usageSeen)
    requires !f.Chunk? && (f.DoneFrame? ==> hasText && finished)
    ensures Grammatical(frames + [f]) && Tracked(frames + [f], finished, hasText, usageSeen)
    ensures Ended(frames + [f], f.DoneFrame?, f.ErrorFrame?)
  {
    PairwiseExtend(frames, f);
    UsageExtend(frames, f);
    ExtendSome(frames, f);
    hide OnlyPlain, NoChoiceAfterStop, UsageOnce, UsageAfterStop, SomeStop, SomeUsage, SomeText;
  }

  /** The session's checks on its flags decide grammaticality. */
  lemma AcceptanceIsGrammar(frames: seq<Frame>, e: Json, finished: bool, hasText: bool, usageSeen: bool)
    requires Grammatical(frames) && AllChunks(frames) && Tracked(frames, finished, hasText, usageSeen)
    ensures Grammatical(frames + [DoneFrame]) <==> finished && hasText
    ensures Grammatical(frames + [Chunk(e)]) <==>
      && PlainEvent(e) && !(finished && HasChoice(e))
      && (CarriesUsage(e) ==> !usageSeen && (finished || Stops(e)))
  {
    hide PlainEvent, HasChoice, Stops, CarriesText, CarriesUsage;
    ExtendSome(frames, DoneFrame);
    if finished && hasText {
      FinalFrameKeepsGrammar(frames, DoneFrame, finished, hasText, usageSeen);
    }
    if PlainEvent(e) && !(finished && HasChoice(e)) && (CarriesUsage(e) ==> !usageSeen && (finished || Stops(e))) {
      ChunkKeepsGrammar(frames, e, finished, hasText, usageSeen);
    }
    if Grammatical(frames + [Chunk(e)]) {
      GrammarForcesChecks(frames, e);
    }
  }

  lemma GrammarForcesChecks(frames: seq<Frame>, e: Json)
    requires Grammatical(frames + [Chunk(e)])
    ensures PlainEvent(e) && !(SomeStop(frames) && HasChoice(e))
    ensures CarriesUsage(e) ==> !SomeUsage(frames) && (SomeStop(frames) || Stops(e))
  {
    hide PlainEvent, HasChoice, Stops, CarriesText, CarriesUsage;
    var next, n := frames + [Chunk(e)], |frames|;
    assert next[n] == Chunk(e);
    assert forall i :: 0 <= i < n ==> next[i] == frames[i];
    assert next[..n + 1] == next;
    ExtendSome(frames, Chunk(e));
  }

  /** Exactly one stop: two different emitted chunks never both stop. */
  lemma StopIsUnique(frames: seq<Frame>, i: nat, j: nat)
    requires Grammatical(frames) && i < |frames| && j < |frames| && IsStop(frames[i]) && IsStop(frames[j])
    ensures i == j
  {
  }

  // ----- ordinary streams -----

  /** A chunk as providers send it: one choice with some text, and a finish reason on the last. */
  function TextChunk(text: string, last: bool): Json {
    Obj(map["choices" := Arr([Obj(map["index" := Number(0.0), "delta" := Obj(map["content" := Str(text)]),
                                     "finish_reason" := if last then Str("stop") else Null])])])
  }

  function UsageChunk(usage: Json): Json {
    Obj(map["choices" := Arr([]), "usage" := usage])
  }

  lemma TextChunkIsPlain(text: string, last: bool)
    ensures var e := TextChunk(text, last);
      PlainEvent(e) && HasChoice(e) && !CarriesUsage(e) && (CarriesText(e) <==> text != "") && (Stops(e) <==> last)
  {
    var e := TextChunk(text, last);
    var choice := e.fields["choices"].items[0];
    assert Get(e, "choices").items == [choice];
    assert PlainChoice(choice);
  }

  lemma UsageChunkIsPlain(usage: Json)
    requires usage != Null
    ensures var e := UsageChunk(usage); PlainEvent(e) && !HasChoice(e) && CarriesUsage(e) && !CarriesText(e) && !Stops(e)
  {
  }

  function TextChunks(texts: seq<string>): seq<Frame> {
    seq(|texts|, i requires 0 <= i < |texts| => Chunk(TextChunk(texts[i], false)))
  }

  lemma {:induction false} TextsAreGrammatical(texts: seq<string>)
    ensures var frames := TextChunks(texts);
      && Grammatical(frames) && AllChunks(frames) && !SomeStop(frames) && !SomeUsage(frames)
      && (SomeText(frames) <==> exists i :: 0 <= i < |texts| && texts[i] != "")
  {
    if texts == [] {
    } else {
      var n := |texts| - 1;
      var init := TextChunks(texts[..n]);
      TextsAreGrammatical(texts[..n]);
      TextChunkIsPlain(texts[n], false);
      hide PlainEvent, HasChoice, Stops, CarriesText, CarriesUsage, Grammatical, TextChunk;
      hide SomeStop, SomeUsage, SomeText, AllChunks;
      ChunkKeepsGrammar(init, TextChunk(texts[n], false), false, SomeText(init), false);
      assert TextChunks(texts) == init + [Chunk(TextChunk(texts[n], false))];
      assert texts == texts[..n] + [texts[n]];
    }
  }

  /**
   * Every ordinary stream passes: some text chunks, a last one that stops, perhaps the usage, then the end marker,
   * provided there is any text at all; without text the end marker fails it.
   */
  lemma OrdinaryStreamPasses(texts: seq<string>, final: string, usage: Json)
    ensures var frames := TextChunks(texts) + [Chunk(TextChunk(final, true))] + if usage == Null then [] else [Chunk(UsageChunk(usage))];
      && Grammatical(frames)
      && (Grammatical(frames + [DoneFrame]) <==> final != "" || exists i :: 0 <= i < |texts| && texts[i] != "")
  {
    var before, stop := TextChunks(texts), TextChunk(final, true);
    TextsAreGrammatical(texts);
    TextChunkIsPlain(final, true);
    hide PlainEvent, HasChoice, Stops, CarriesText, CarriesUsage, Grammatical, TextChunk, TextChunks, UsageChunk;
    hide SomeStop, SomeUsage, SomeText, AllChunks;
    ChunkKeepsGrammar(before, stop, false, SomeText(before), false);
    var stopped, hasText := before + [Chunk(stop)], SomeText(before) || CarriesText(stop);
    if usage == Null {
      assert stopped + [] == stopped;
      AcceptanceIsGrammar(stopped, stop, true, hasText, false);
    } else {
      UsageChunkIsPlain(usage);
      ChunkKeepsGrammar(stopped, UsageChunk(usage), true, hasText, false);
      AcceptanceIsGrammar(stopped + [Chunk(UsageChunk(usage))], stop, true, hasText, true);
    }
  }

  /** Tool and function calls, refusals, other content than text, later choices, other finishes than a stop are never forwarded. */
  lemma NeverForwarded(e: Json, choice: Json)
    requires e.Obj? && "choices" in e.fields && e.fields["choices"] == Arr([choice]) && choice.Obj?
    requires || ("delta" in choice.fields && choice.fields["delta"].Obj?
                 && exists key :: key in ["tool_calls", "function_call", "refusal"] && key in choice.fields["delta"].fields
                                  && Truthy(choice.fields["delta"].fields[key]))
             || ("finish_reason" in choice.fields && choice.fields["finish_reason"] !in [Null, Str("stop")])
             || ("delta" in choice.fields && choice.fields["delta"].Obj? && "content" in choice.fields["delta"].fields
                 && !choice.fields["delta"].fields["content"].Null? && !choice.fields["delta"].fields["content"].Str?)
             || ("index" in choice.fields && choice.fields["index"] !in [Number(0.0), Bool(false)])
             || "error" in e.fields
    ensures !PlainEvent(e)
  {
    assert Get(e, "choices").items[0] == choice;
  }
}
