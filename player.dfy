/**
 * The submission side of the audio player: commands go into a channel that
 * the player thread drains. Only what the note scales use is modelled here.
 */
module Player {
  import opened Wrappers

  /** The command protocol between the sequencer and the player thread. */
  datatype Command<S> = Play(sound: S) | Stop | Pause | Resume

  /** A send failed because the receiving player has been dropped. */
  datatype SendError = Disconnected

  /** The sending end of the command channel. */
  class AudioPlayerInterface<S> {
    /** Every command the channel has accepted, in order. */
    var sent: seq<Command<S>>
    /** Whether the receiving end still exists; only the player thread ends it. */
    var receiverAlive: bool

    /** The sender returned with a freshly created player. */
    constructor ()
      ensures sent == [] && receiverAlive
    {
      sent := [];
      receiverAlive := true;
    }

    /** Enqueues one `Play` command without waiting for it to be handled. */
    method PlaySound(sound: S) returns (r: Outcome<SendError>)
      modifies this`sent
      ensures r.Pass? <==> receiverAlive
      ensures sent == old(sent) + (if receiverAlive then [Play(sound)] else [])
    {
      if receiverAlive {
        sent := sent + [Play(sound)];
        r := Pass;
      } else {
        r := Fail(Disconnected);
      }
    }
  }
}
