/** The host's bounded memory of one terminal's output.
  *
  * Frames are kept in arrival order; the oldest go when there are too many of
  * them or too many bytes, but the newest always stays. A reader who says how
  * far it got is sent what follows, or everything retained if the point it
  * names is no longer covered.
  */
module Scrollback {
  import opened Basics
  import Seqs

  const SCROLLBACK_LIMIT: nat := 10_000
  const SCROLLBACK_MAX_BYTES: nat := 8 * 1024 * 1024

  datatype Frame =
    | Output(data: seq<Byte>)
    | Title(title: string)
    | Exit(code: Option<int>)
    | EchoMode(echo: bool)

  /** What a reader receives: where its replay starts, then frames. */
  datatype Event = Replay(cursor: nat, reset: bool) | Live(frame: Frame)

  function Data(frame: Frame): seq<Byte> {
    if frame.Output? then frame.data else []
  }

  function Text(frames: seq<Frame>): seq<Byte> {
    if frames == [] then [] else Data(frames[0]) + Text(frames[1..])
  }

  function EventText(events: seq<Event>): seq<Byte> {
    if events == [] then []
    else (if events[0].Live? then Data(events[0].frame) else []) + EventText(events[1..])
  }

  lemma {:induction false} TextAppend(a: seq<Frame>, b: seq<Frame>)
    ensures Text(a + b) == Text(a) + Text(b)
  {
    if a == [] {
      assert a + b == b;
    } else {
      assert (a + b)[1..] == a[1..] + b;
      TextAppend(a[1..], b);
    }
  }

  lemma {:induction false} EventTextAppend(a: seq<Event>, b: seq<Event>)
    ensures EventText(a + b) == EventText(a) + EventText(b)
  {
    if a == [] {
      assert a + b == b;
    } else {
      assert (a + b)[1..] == a[1..] + b;
      EventTextAppend(a[1..], b);
    }
  }

  // ----- eviction -----

  predicate Fits(frames: seq<Frame>, limit: nat, maxBytes: nat) {
    |frames| <= limit && |Text(frames)| <= maxBytes
  }

  function Evicted(frames: seq<Frame>, limit: nat, maxBytes: nat): seq<Frame> {
    if |frames| > 1 && !Fits(frames, limit, maxBytes) then Evicted(frames[1..], limit, maxBytes)
    else frames
  }

  lemma EvictionStep(frames: seq<Frame>, limit: nat, maxBytes: nat)
    ensures |frames| > 1 && !Fits(frames, limit, maxBytes)
        ==> Evicted(frames, limit, maxBytes) == Evicted(frames[1..], limit, maxBytes)
    ensures |frames| <= 1 || Fits(frames, limit, maxBytes) ==> Evicted(frames, limit, maxBytes) == frames
  {
  }

  /** Eviction keeps the longest run of newest frames that fits, and the newest
    * frame even when it does not. */
  lemma {:induction false} EvictionKeepsTheLongestFit(frames: seq<Frame>, limit: nat, maxBytes: nat) returns (dropped: nat)
    requires frames != []
    ensures dropped < |frames| && Evicted(frames, limit, maxBytes) == frames[dropped..]
    ensures dropped < |frames| - 1 ==> Fits(frames[dropped..], limit, maxBytes)
    ensures forall i :: 0 <= i < dropped ==> !Fits(frames[i..], limit, maxBytes)
    decreases |frames|
  {
    assert frames[0..] == frames;
    if |frames| > 1 && !Fits(frames, limit, maxBytes) {
      var rest := EvictionKeepsTheLongestFit(frames[1..], limit, maxBytes);
      dropped := rest + 1;
      assert frames[1..][rest..] == frames[dropped..];
      forall i | 0 <= i < dropped
        ensures !Fits(frames[i..], limit, maxBytes)
      {
        if i > 0 {
          assert frames[i..] == frames[1..][i - 1..];
        }
      }
    } else {
      dropped := 0;
    }
  }

  lemma {:induction false} EvictionKeepsASuffix(frames: seq<Frame>, limit: nat, maxBytes: nat)
    ensures var kept := Text(Evicted(frames, limit, maxBytes));
      |kept| <= |Text(frames)| && Text(frames)[|Text(frames)| - |kept|..] == kept
    decreases |frames|
  {
    if |frames| > 1 && !Fits(frames, limit, maxBytes) {
      EvictionKeepsASuffix(frames[1..], limit, maxBytes);
      var rest := Text(frames[1..]);
      var kept := Text(Evicted(frames[1..], limit, maxBytes));
      assert Text(frames) == Data(frames[0]) + rest;
      Seqs.DropBeyond(Data(frames[0]), rest, |Text(frames)| - |kept|);
    }
  }

  // ----- replay -----

  /** The frames that follow `cursor`, when the first of them starts at `position`. */
  function After(frames: seq<Frame>, position: nat, cursor: nat): seq<Event> {
    if frames == [] then []
    else
      var end := position + |Data(frames[0])|;
      After1(frames[0], position, cursor) + After(frames[1..], end, cursor)
  }

  function After1(frame: Frame, position: nat, cursor: nat): seq<Event> {
    if frame.Output? then
      if position + |frame.data| <= cursor then []
      else [Live(Output(frame.data[if cursor > position then cursor - position else 0..]))]
    else if position >= cursor then [Live(frame)]
    else []
  }

  predicate NoReplay(events: seq<Event>) {
    forall e <- events :: e.Live?
  }

  lemma After1Text(frame: Frame, position: nat, cursor: nat)
    ensures EventText(After1(frame, position, cursor))
         == Data(frame)[Seqs.Min(if cursor > position then cursor - position else 0, |Data(frame)|)..]
    ensures NoReplay(After1(frame, position, cursor))
  {
    var events := After1(frame, position, cursor);
    if events != [] {
      assert events[1..] == [];
    }
  }

  /** A replay contains exactly the bytes after the cursor. */
  lemma {:induction false} AfterText(frames: seq<Frame>, position: nat, cursor: nat)
    requires cursor <= position + |Text(frames)|
    ensures EventText(After(frames, position, cursor))
         == Text(frames)[if cursor > position then cursor - position else 0..]
    ensures NoReplay(After(frames, position, cursor))
  {
    if frames != [] {
      var data, rest := Data(frames[0]), Text(frames[1..]);
      var end := position + |data|;
      var head, tail := After1(frames[0], position, cursor), After(frames[1..], end, cursor);
      var skip := if cursor > position then cursor - position else 0;
      assert After(frames, position, cursor) == head + tail && Text(frames) == data + rest;
      hide After, After1, Text, EventText, Data, NoReplay;
      AfterText(frames[1..], end, cursor);
      After1Text(frames[0], position, cursor);
      EventTextAppend(head, tail);
      Seqs.DropAcross(data, rest, skip);
      NoReplayAppend(head, tail);
    } else {
      NothingAfter(position, cursor);
    }
  }

  lemma NothingAfter(position: nat, cursor: nat)
    ensures EventText(After([], position, cursor)) == [] && Text([]) == [] && NoReplay(After([], position, cursor))
  {
  }

  lemma NoReplayAppend(a: seq<Event>, b: seq<Event>)
    requires NoReplay(a) && NoReplay(b)
    ensures NoReplay(a + b)
  {
  }

  lemma TextSnoc(frames: seq<Frame>, last: Frame)
    ensures Text(frames + [last]) == Text(frames) + Data(last)
  {
    TextAppend(frames, [last]);
    assert [last][1..] == [] && Text([last]) == Data(last);
  }

  lemma TextTail(frames: seq<Frame>)
    requires frames != []
    ensures Text(frames) == Data(frames[0]) + Text(frames[1..])
  {
  }

  lemma TextSuffix(stream: seq<Byte>, from: nat, frames: seq<Frame>)
    requires frames != [] && from <= |stream| && stream[from..] == Text(frames)
    ensures from + |Data(frames[0])| <= |stream| && stream[from + |Data(frames[0])|..] == Text(frames[1..])
  {
    TextTail(frames);
    hide Text, Data;
    Seqs.DropPrefix(stream, from, Data(frames[0]), Text(frames[1..]));
  }

  lemma AfterCons(frames: seq<Frame>, position: nat, cursor: nat)
    requires frames != []
    ensures After(frames, position, cursor)
         == After1(frames[0], position, cursor) + After(frames[1..], position + |Data(frames[0])|, cursor)
  {
  }

  lemma {:induction false} AfterAppend(frames: seq<Frame>, last: Frame, position: nat, cursor: nat)
    ensures After(frames + [last], position, cursor)
         == After(frames, position, cursor) + After1(last, position + |Text(frames)|, cursor)
  {
    var all := frames + [last];
    if frames == [] {
      assert all[1..] == [];
    } else {
      assert all[1..] == frames[1..] + [last];
      var end := position + |Data(frames[0])|;
      AfterAppend(frames[1..], last, end, cursor);
      AfterCons(all, position, cursor);
      AfterCons(frames, position, cursor);
      TextTail(frames);
      hide After, After1, Text, Data;
      Seqs.Assoc(After1(frames[0], position, cursor), After(frames[1..], end, cursor),
                 After1(last, position + |Text(frames)|, cursor));
    }
  }

  lemma StartOfFrames(frames: seq<Frame>, position: nat, cursor: nat)
    ensures Text(frames[..0]) == [] && After(frames[..0], position, cursor) == []
  {
  }

  lemma ReplayStep(frames: seq<Frame>, i: nat, start: nat, cursor: nat)
    requires i < |frames|
    ensures Text(frames[..i + 1]) == Text(frames[..i]) + Data(frames[i])
    ensures After(frames[..i + 1], start, cursor)
         == After(frames[..i], start, cursor) + After1(frames[i], start + |Text(frames[..i])|, cursor)
  {
    assert frames[..i + 1] == frames[..i] + [frames[i]];
    TextSnoc(frames[..i], frames[i]);
    AfterAppend(frames[..i], frames[i], start, cursor);
  }

  predicate CanResume(cursor: Option<nat>, start: nat, total: nat) {
    cursor.Some? && start <= cursor.value <= total
  }

  /** The replay sent to a reader at `cursor`. */
  function Since(frames: seq<Frame>, total: nat, cursor: Option<nat>): seq<Event>
    requires |Text(frames)| <= total
  {
    var start := total - |Text(frames)|;
    var from := if CanResume(cursor, start, total) then cursor.value else start;
    [Replay(from, cursor.Some? && !CanResume(cursor, start, total))] + After(frames, start, from)
  }

  lemma SinceIs(frames: seq<Frame>, total: nat, cursor: Option<nat>)
    requires |Text(frames)| <= total
    ensures var start := total - |Text(frames)|;
      var from := if CanResume(cursor, start, total) then cursor.value else start;
      Since(frames, total, cursor)
        == [Replay(from, cursor.Some? && !CanResume(cursor, start, total))] + After(frames, start, from)
  {
  }

  function ReplayStart(stream: seq<Byte>, frames: seq<Frame>, cursor: Option<nat>): nat
    requires |Text(frames)| <= |stream|
  {
    if CanResume(cursor, |stream| - |Text(frames)|, |stream|) then cursor.value else |stream| - |Text(frames)|
  }

  /** The replay starts where the reader left off when that is still covered,
    * and otherwise at the oldest byte retained, saying so if the reader had
    * named a place. What follows is the stream from there to its end. */
  lemma ReplayIsTheRest(stream: seq<Byte>, frames: seq<Frame>, cursor: Option<nat>)
    requires |Text(frames)| <= |stream| && stream[|stream| - |Text(frames)|..] == Text(frames)
    ensures var replay, from := Since(frames, |stream|, cursor), ReplayStart(stream, frames, cursor);
      && replay[0] == Replay(from, cursor.Some? && cursor.value != from)
      && NoReplay(replay[1..])
      && from <= |stream| && EventText(replay[1..]) == stream[from..]
  {
    var start, from := |stream| - |Text(frames)|, ReplayStart(stream, frames, cursor);
    AfterText(frames, start, from);
    assert Since(frames, |stream|, cursor)[1..] == After(frames, start, from);
    hide After, EventText, Text;
    assert stream[start..][from - start..] == stream[from..];
  }

  /** The loop of `FramesSince`: what is sent after the replay marker. */
  method FramesFrom(frames: seq<Frame>, retainedStart: nat, replayCursor: nat) returns (sent: seq<Event>)
    ensures sent == After(frames, retainedStart, replayCursor)
  {
    hide Text, After;
    StartOfFrames(frames, retainedStart, replayCursor);
    sent := [];
    var position := retainedStart;
    for i := 0 to |frames|
      invariant position == retainedStart + |Text(frames[..i])|
      invariant sent == After(frames[..i], retainedStart, replayCursor)
    {
      ReplayStep(frames, i, retainedStart, replayCursor);
      match frames[i] {
        case Output(data) =>
          var end := position + |data|;
          if end > replayCursor {
            var skip := if replayCursor > position then replayCursor - position else 0;
            sent := sent + [Live(Output(data[skip..]))];
          }
          position := end;
        case _ =>
          if position >= replayCursor {
            sent := sent + [Live(frames[i])];
          }
      }
    }
    assert frames[..|frames|] == frames;
  }

  /** The two counters are true, and the frames hold the end of the stream. */
  ghost predicate Retains(stream: seq<Byte>, frames: seq<Frame>, outputBytes: nat, totalOutputBytes: nat) {
    && outputBytes == |Text(frames)| <= totalOutputBytes == |stream|
    && stream[totalOutputBytes - outputBytes..] == Text(frames)
  }

  lemma RetainsOneMore(stream: seq<Byte>, frames: seq<Frame>, outputBytes: nat, totalOutputBytes: nat, frame: Frame)
    requires Retains(stream, frames, outputBytes, totalOutputBytes)
    ensures Retains(stream + Data(frame), frames + [frame], outputBytes + |Data(frame)|, totalOutputBytes + |Data(frame)|)
  {
    TextSnoc(frames, frame);
    Seqs.DropWithin(stream, Data(frame), totalOutputBytes - outputBytes);
  }

  lemma RetainsOneFewer(stream: seq<Byte>, frames: seq<Frame>, outputBytes: nat, totalOutputBytes: nat)
    requires Retains(stream, frames, outputBytes, totalOutputBytes) && frames != []
    ensures |Data(frames[0])| <= outputBytes
    ensures Retains(stream, frames[1..], outputBytes - |Data(frames[0])|, totalOutputBytes)
  {
    TextTail(frames);
    TextSuffix(stream, totalOutputBytes - outputBytes, frames);
  }

  lemma RetainsCounts(stream: seq<Byte>, frames: seq<Frame>, outputBytes: nat, totalOutputBytes: nat, limit: nat, maxBytes: nat)
    requires Retains(stream, frames, outputBytes, totalOutputBytes)
    ensures Fits(frames, limit, maxBytes) <==> |frames| <= limit && outputBytes <= maxBytes
  {
  }

  lemma EvictionDue(stream: seq<Byte>, frames: seq<Frame>, outputBytes: nat, totalOutputBytes: nat, limit: nat, maxBytes: nat)
    requires Retains(stream, frames, outputBytes, totalOutputBytes)
    requires |frames| > 1 && (|frames| > limit || outputBytes > maxBytes)
    ensures Evicted(frames, limit, maxBytes) == Evicted(frames[1..], limit, maxBytes)
    ensures |Data(frames[0])| <= outputBytes
    ensures Retains(stream, frames[1..], outputBytes - |Data(frames[0])|, totalOutputBytes)
  {
    RetainsCounts(stream, frames, outputBytes, totalOutputBytes, limit, maxBytes);
    EvictionStep(frames, limit, maxBytes);
    RetainsOneFewer(stream, frames, outputBytes, totalOutputBytes);
  }

  lemma EvictionDone(stream: seq<Byte>, frames: seq<Frame>, outputBytes: nat, totalOutputBytes: nat, limit: nat, maxBytes: nat)
    requires Retains(stream, frames, outputBytes, totalOutputBytes)
    requires !(|frames| > 1 && (|frames| > limit || outputBytes > maxBytes))
    ensures Evicted(frames, limit, maxBytes) == frames
  {
    RetainsCounts(stream, frames, outputBytes, totalOutputBytes, limit, maxBytes);
    EvictionStep(frames, limit, maxBytes);
  }

  class History {
    const limit: nat
    const maxBytes: nat
    var outputBytes: nat
    var totalOutputBytes: nat
    var frames: seq<Frame>
    /** Everything ever pushed. */
    ghost var stream: seq<Byte>

    constructor (limit: nat, maxBytes: nat)
      ensures Valid() && stream == [] && frames == [] && this.limit == limit && this.maxBytes == maxBytes
    {
      this.limit, this.maxBytes := limit, maxBytes;
      outputBytes, totalOutputBytes, frames, stream := 0, 0, [], [];
    }

    ghost predicate Valid()
      reads this
    {
      Retains(stream, frames, outputBytes, totalOutputBytes)
    }

    method Push(frame: Frame)
      requires Valid()
      modifies this
      ensures Valid() && stream == old(stream) + Data(frame)
      ensures frames == Evicted(old(frames) + [frame], limit, maxBytes)
    {
      hide Text, Evicted, Retains, Data;
      RetainsOneMore(stream, frames, outputBytes, totalOutputBytes, frame);
      stream := stream + Data(frame);
      outputBytes := outputBytes + |Data(frame)|;
      totalOutputBytes := totalOutputBytes + |Data(frame)|;
      frames := frames + [frame];
      Evict();
    }

    /** The loop of `Push`. */
    method Evict()
      requires Valid() && frames != []
      modifies this`frames, this`outputBytes
      ensures Valid() && frames == Evicted(old(frames), limit, maxBytes)
    {
      hide Text, Evicted, Retains, Fits, Data;
      while |frames| > 1 && (|frames| > limit || outputBytes > maxBytes)
        invariant Evicted(frames, limit, maxBytes) == Evicted(old(frames), limit, maxBytes)
        invariant Valid() && frames != []
        decreases |frames|
      {
        EvictionDue(stream, frames, outputBytes, totalOutputBytes, limit, maxBytes);
        var evicted := frames[0];
        frames := frames[1..];
        outputBytes := outputBytes - |Data(evicted)|;
      }
      EvictionDone(stream, frames, outputBytes, totalOutputBytes, limit, maxBytes);
    }

    /** A reader who has the stream up to its cursor has, with the replay, all of it. */
    method FramesSince(cursor: Option<nat>) returns (replay: seq<Event>)
      requires Valid()
      ensures replay == Since(frames, totalOutputBytes, cursor)
      ensures var from := ReplayStart(stream, frames, cursor);
        && replay[0] == Replay(from, cursor.Some? && cursor.value != from)
        && NoReplay(replay[1..])
        && from <= |stream| && EventText(replay[1..]) == stream[from..]
    {
      var retainedStart := totalOutputBytes - outputBytes;
      var canResume := cursor.Some? && cursor.value >= retainedStart && cursor.value <= totalOutputBytes;
      var replayCursor := if canResume then cursor.value else retainedStart;
      ReplayIsTheRest(stream, frames, cursor);
      SinceIs(frames, totalOutputBytes, cursor);
      hide Text, EventText, After, Since, NoReplay, ReplayStart;
      var sent := FramesFrom(frames, retainedStart, replayCursor);
      replay := [Replay(replayCursor, cursor.Some? && !canResume)] + sent;
    }
  }
}
