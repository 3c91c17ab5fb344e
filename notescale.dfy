/**
 * The capability a track plays its notes through. The source declares it as a
 * one-method interface with two implementations; here it is a closed union of
 * them: a sample bank, or a synthesizer standing for the sine scale.
 */
module NoteScales {
  import opened Wrappers
  import opened Notes
  import opened Player
  import opened FileScales

  datatype NoteScale<S> =
    | Files(bank: FileScale<S>)
    | Synthesized(wave: Note -> S)
  {
    /** A bank bound to a track is one `FromFiles` produced. */
    predicate Valid() {
      Files? ==> bank.Valid()
    }

    /** The sound the scale submits for `note`. */
    function SoundOf(note: Note): (s: S)
      requires Valid()
      ensures Files? ==> s == bank.notesData[note]
    {
      match this
      case Files(b) => b.notesData[note]
      case Synthesized(w) => w(note)
    }

    /** `play_note`: submits exactly one sound, the one for `note`, and passes on a send failure. */
    method PlayNote(note: Note, player: AudioPlayerInterface<S>) returns (r: Outcome<SendError>)
      requires Valid()
      modifies player`sent
      ensures r.Pass? <==> player.receiverAlive
      ensures player.sent == old(player.sent) + (if player.receiverAlive then [Play(SoundOf(note))] else [])
    {
      match this
      case Files(b) =>
        r := b.PlayNote(note, player);
      case Synthesized(w) =>
        r := player.PlaySound(w(note));
    }
  }
}
