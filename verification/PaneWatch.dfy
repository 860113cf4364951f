/** One client watching one pane: the relay sends a frame, whole or as a delta, and sends no other
    before the client has acknowledged it.

    Fingerprints are taken as injective, so a content's fingerprint is the content, and a frame's is
    the content with what else the frame shows. `down` and `up` are the messages and acknowledgements
    under way, in order, and `client` is the content the client holds. */
module PaneWatch {
  import opened Options
  import opened PaneDelta

  /** `printed` is false for the stand-in made from the fingerprint a client brought along, which
      has no frame fingerprint. */
  datatype Frame = Frame(content: string, shows: nat, printed: bool, agent: string, settling: bool)

  datatype Message = Whole(content: string) | Delta(base: string, segments: seq<Segment>, content: string)

  predicate SameFrame(a: Frame, b: Frame) {
    a.printed && a.content == b.content && a.shows == b.shows && a.settling == b.settling
  }

  /** The message brings a client that holds `held` to `content`. */
  ghost predicate Brings(m: Message, held: Option<string>, content: string) {
    match m
    case Whole(text) => text == content
    case Delta(base, segments, target) =>
      held == Some(base) && target == content && Rebuilt(SplitAfter(base), segments) == Some(content)
  }

  /** `paneWatchUpdate`: nothing for a frame the client has, the whole frame for a client that has
      none, and otherwise a delta from the acknowledged content where that is worth it. */
  method Update(acknowledged: Option<Frame>, current: Frame) returns (m: Option<Message>)
    ensures m.None? <==> acknowledged.Some? && SameFrame(acknowledged.value, current)
    ensures m.Some? && m.value.Delta? ==> acknowledged.Some? && m.value.base == acknowledged.value.content
    ensures m.Some? && acknowledged.Some? ==> Brings(m.value, Some(acknowledged.value.content), current.content)
    ensures m.Some? && acknowledged.None? ==> m.value == Whole(current.content)
    ensures m.Some? && acknowledged.Some? && acknowledged.value.content == current.content ==> m.value.Delta?
  {
    if acknowledged.Some? && SameFrame(acknowledged.value, current) {
      return None;
    }
    if acknowledged.None? {
      return Some(Whole(current.content));
    }
    var base := acknowledged.value.content;
    if base == current.content {
      var newlines := CountNewlines(base);
      WholeCopy(base);
      return Some(Delta(base, [Segment(0, newlines + 1, "")], current.content));
    }
    var segments := Build(base, current.content);
    var worth := Efficient(segments, current.content);
    if worth {
      return Some(Delta(base, segments, current.content));
    }
    m := Some(Whole(current.content));
  }

  method CountNewlines(s: string) returns (n: nat)
    ensures n == Newlines(s)
  {
    n := 0;
    var i := |s|;
    while i > 0
      invariant 0 <= i <= |s| && n == Newlines(s[i..])
    {
      i := i - 1;
      assert s[i..][1..] == s[i + 1..];
      if s[i] == '\n' {
        n := n + 1;
      }
    }
  }

  /** `paneWatchNeedsFrameRead`. */
  predicate NeedsRead(previous: Option<string>, probe: string, acknowledged: Option<Frame>, agent: string) {
    || previous.None? || previous.value != probe
    || (acknowledged.Some? && (acknowledged.value.settling || acknowledged.value.agent != agent))
  }

  /** A frame is read for a probe that differs from the last one, and again while the acknowledged frame
      was taken during a resize or for another agent. */
  ghost predicate Worthwhile(probed: Option<string>, probe: string, acknowledged: Option<Frame>, agent: string) {
    probed == Some(probe) ==> acknowledged.Some? && (acknowledged.value.settling || acknowledged.value.agent != agent)
  }

  class Watch {
    var acknowledged: Option<Frame>
    var pending: Option<Frame>
    var probed: Option<string>
    var down: seq<Message>
    var up: seq<string>
    var client: Option<string>

    /** At most one frame is under way, as a message or as its acknowledgement, and it is the pending
        one; the client holds the acknowledged content or the pending one. */
    ghost predicate Valid()
      reads this
    {
      && |down| + |up| == (if pending.Some? then 1 else 0)
      && (acknowledged.Some? ==>
            client.Some? && (client.value == acknowledged.value.content ||
                             (pending.Some? && client.value == pending.value.content)))
      && (pending.None? && acknowledged.Some? ==> client == Some(acknowledged.value.content))
      && (|down| == 1 ==> Brings(down[0], client, pending.value.content))
      && (|up| == 1 ==> up[0] == pending.value.content && client == Some(pending.value.content))
    }

    /** A watch begins with what the client holds; the fingerprint it brought may be of that. The
        first frame always goes out. */
    constructor (held: Option<string>, known: Option<string>, frame: Frame)
      requires known.Some? ==> held == known
      ensures Valid() && client == held && pending == Some(frame) && acknowledged == None && |down| == 1
      ensures known == Some(frame.content) ==> down[0].Delta? && down[0].base == frame.content
      ensures known != Some(frame.content) ==> down[0] == Whole(frame.content)
    {
      var seen := None;
      if known == Some(frame.content) {
        seen := Some(Frame(frame.content, 0, false, "", false));
      }
      var message := Update(seen, frame);
      acknowledged, pending, probed := None, Some(frame), None;
      up, client := [], held;
      down := [message.value];
    }

    /** `pollPaneWatch`; `frame` is what reading the pane gives, if it gives anything. */
    method Poll(probe: string, agent: string, frame: Option<Frame>) returns (sent: Option<Message>)
      requires Valid()
      modifies this`acknowledged, this`pending, this`probed, this`down
      ensures Valid()
      ensures old(pending).Some? ==> sent.None? && pending == old(pending) && acknowledged == old(acknowledged) && down == old(down)
      ensures sent.Some? ==> old(pending).None? && frame.Some? && pending == frame && acknowledged == old(acknowledged) && down == [sent.value]
      ensures sent.Some? && sent.value.Delta? ==>
        && acknowledged.Some? && sent.value.base == acknowledged.value.content
        && Rebuilt(SplitAfter(acknowledged.value.content), sent.value.segments) == Some(frame.value.content)
      ensures sent.None? ==> pending == old(pending) && down == old(down)
      ensures sent.Some? <==>
        && old(pending).None? && frame.Some? && Worthwhile(old(probed), probe, old(acknowledged), agent)
        && !(old(acknowledged).Some? && SameFrame(old(acknowledged).value, frame.value))
      ensures acknowledged != old(acknowledged) ==>
        old(acknowledged).Some? && frame.Some? && acknowledged == frame && SameFrame(old(acknowledged).value, frame.value)
    {
      sent := None;
      if pending.Some? {
        return;
      }
      if !NeedsRead(probed, probe, acknowledged, agent) || frame.None? {
        return;
      }
      probed := Some(probe);
      sent := Update(acknowledged, frame.value);
      if sent.None? {
        acknowledged := frame;
        return;
      }
      pending := frame;
      down := [sent.value];
    }

    /** The client takes the next message and acknowledges what it then holds. A delta from another
        base would be refused. */
    method Receive() returns (refused: bool)
      requires Valid() && |down| == 1
      modifies this`down, this`up, this`client
      ensures Valid() && !refused && client == Some(pending.value.content) && down == []
    {
      var m := down[0];
      refused := false;
      match m {
        case Whole(content) => client := Some(content);
        case Delta(base, segments, content) =>
          var next := None;
          if client == Some(base) {
            next := Apply(base, segments);
          }
          if next.None? {
            refused := true;
          } else {
            client := next;
          }
      }
      down := [];
      up := up + [client.value];
    }

    /** `handlePaneApplied`: whatever a client claims to have applied, only the pending content
        becomes the acknowledged one. */
    method HandleApplied(content: string) returns (resync: bool)
      modifies this`acknowledged, this`pending
      ensures old(pending).Some? && old(pending).value.content == content ==>
        !resync && acknowledged == old(pending) && pending == None
      ensures !(old(pending).Some? && old(pending).value.content == content) ==>
        acknowledged == old(acknowledged) && pending == old(pending) &&
        (resync <==> !(acknowledged.Some? && acknowledged.value.content == content))
    {
      if pending.Some? && pending.value.content == content {
        acknowledged, pending := pending, None;
        return false;
      }
      resync := !(acknowledged.Some? && acknowledged.value.content == content);
    }

    /** The acknowledgement reaches the relay; no resync follows. */
    method Acknowledge() returns (resync: bool)
      requires Valid() && |up| == 1
      modifies this`acknowledged, this`pending, this`up
      ensures Valid() && !resync && pending == None && acknowledged == old(pending)
    {
      var content := up[0];
      up := [];
      resync := HandleApplied(content);
    }
  }
}
