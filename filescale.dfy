/**
 * A sample bank: one decoded sound per note, loaded from files whose names
 * come from a template, and played by lookup.
 */
module FileScales {
  import opened Wrappers
  import opened Notes
  import opened Player

  datatype FileScale<S> = FileScale(notesData: map<Note, S>) {
    /** Every note has a sound: what a successful `FromFiles` establishes. */
    predicate Valid() {
      forall n: Note :: n in notesData
    }

    /** Submits the stored sound for `note`; a missing entry cannot happen in a valid bank. */
    method PlayNote(note: Note, player: AudioPlayerInterface<S>) returns (r: Outcome<SendError>)
      requires Valid()
      modifies player`sent
      ensures r.Pass? <==> player.receiverAlive
      ensures player.sent == old(player.sent) + (if player.receiverAlive then [Play(notesData[note])] else [])
    {
      if note in notesData {
        r := player.PlaySound(notesData[note]);
      } else {
        assert false;
      }
    }
  }

  /** The variables a filename template is formatted with: `note` bound to the note's name. */
  function TemplateVars(note: Note): (vars: map<string, string>)
    ensures vars.Keys == {"note"}
    ensures Parse(vars["note"]) == Success(note)
  {
    map["note" := DisplayStr(note)]
  }

  /**
   * The collaborators `FromFiles` relies on: the template formatter, opening a
   * file by name and decoding an opened file into a sound.
   */
  datatype Loader<!F, S, E> = Loader(
    format: (string, map<string, string>) -> Result<string, E>,
    open: string -> Result<F, E>,
    decode: F -> Result<S, E>)
  {
    /**
     * Loading the sound of one note: format the template, open the file,
     * decode it; the first of the three steps that fails gives the error.
     */
    function Load(template: string, note: Note): (r: Result<S, E>)
      ensures r.Success? <==>
        && format(template, TemplateVars(note)).Success?
        && open(format(template, TemplateVars(note)).value).Success?
        && decode(open(format(template, TemplateVars(note)).value).value).Success?
      ensures format(template, TemplateVars(note)).Failure? ==> r.error == format(template, TemplateVars(note)).error
      ensures format(template, TemplateVars(note)).Success? && open(format(template, TemplateVars(note)).value).Failure? ==>
        r.error == open(format(template, TemplateVars(note)).value).error
      ensures format(template, TemplateVars(note)).Success? && open(format(template, TemplateVars(note)).value).Success? ==>
        r == decode(open(format(template, TemplateVars(note)).value).value)
    {
      match format(template, TemplateVars(note))
      case Failure(e) => Failure(e)
      case Success(fileName) =>
        match open(fileName)
        case Failure(e) => Failure(e)
        case Success(file) => decode(file)
    }

    /** The first `k` notes of `List` all load. */
    predicate LoadsUpTo(template: string, k: nat)
      requires k <= |List|
    {
      forall j | 0 <= j < k :: Load(template, List[j]).Success?
    }

    /** `List[k]` is the first note of `List` that fails to load. */
    predicate FailsFirstAt(template: string, k: nat)
    {
      k < |List| && LoadsUpTo(template, k) && Load(template, List[k]).Failure?
    }
  }

  /**
   * Builds the bank by loading every note of `List` in order, stopping at the
   * first failure. `attempted` is the sequence of notes whose loading began.
   */
  method FromFiles<F, S, E>(template: string, loader: Loader<F, S, E>)
    returns (r: Result<FileScale<S>, E>, ghost attempted: seq<Note>)
    ensures r.Success? <==> loader.LoadsUpTo(template, |List|)
    ensures r.Success? ==> r.value.Valid() && |r.value.notesData| == |List|
    ensures r.Success? ==> forall n: Note :: loader.Load(template, n) == Success(r.value.notesData[n])
    ensures r.Success? ==> attempted == List
    ensures r.Failure? ==>
      exists k | 0 <= k < |List| ::
        && loader.FailsFirstAt(template, k)
        && loader.Load(template, List[k]) == Failure(r.error)
        && attempted == List[..k + 1]
  {
    var notesData: map<Note, S> := map[];
    attempted := [];
    var i := 0;
    while i < |List|
      invariant 0 <= i <= |List|
      invariant attempted == List[..i]
      invariant loader.LoadsUpTo(template, i)
      invariant forall j | 0 <= j < i :: List[j] in notesData && loader.Load(template, List[j]) == Success(notesData[List[j]])
    {
      var note := List[i];
      attempted := attempted + [note];
      var sound: Result<S, E>;
      var fileName := loader.format(template, TemplateVars(note));
      if fileName.Failure? {
        sound := Failure(fileName.error);
      } else {
        var file := loader.open(fileName.value);
        if file.Failure? {
          sound := Failure(file.error);
        } else {
          sound := loader.decode(file.value);
        }
      }
      assert sound == loader.Load(template, note);
      if sound.Failure? {
        assert loader.FailsFirstAt(template, i);
        return Failure(sound.error), attempted;
      }
      ListDistinct();
      notesData := notesData[note := sound.value];
      i := i + 1;
    }
    LoadedBankIsComplete(template, loader, notesData);
    r := Success(FileScale(notesData));
  }

  /** Once every note of `List` is loaded, the bank covers all seven notes. */
  lemma LoadedBankIsComplete<F, S, E>(template: string, loader: Loader<F, S, E>, notesData: map<Note, S>)
    requires forall j | 0 <= j < |List| :: List[j] in notesData && loader.Load(template, List[j]) == Success(notesData[List[j]])
    ensures FileScale(notesData).Valid() && |notesData| == |List|
    ensures forall n: Note :: loader.Load(template, n) == Success(notesData[n])
  {
    forall n: Note ensures n in notesData && loader.Load(template, n) == Success(notesData[n]) {
      assert List[IndexOf(n)] == n;
    }
    AllNotesCount();
    assert notesData.Keys == AllNotes;
  }
}
