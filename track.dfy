/**
 * A track: a fixed pattern of notes, a wrapping cursor into it, the time of the
 * last beat, a tempo and an optional note scale that sounds each step.
 * Time is an integer clock in nanoseconds, passed in as `now`.
 */
module Tracks {
  import opened Wrappers
  import opened Notes
  import opened Player
  import opened NoteScales

  /** `tokens[k]` is the first token that names no note. */
  predicate FirstUnparseable(tokens: seq<string>, k: nat) {
    && k < |tokens|
    && Parse(tokens[k]).Failure?
    && forall j | 0 <= j < k :: Parse(tokens[j]).Success?
  }

  /**
   * Parses every token in order; the first token that names no note stops the
   * parse and its error is the result.
   */
  function ParseAll(tokens: seq<string>): (r: Result<seq<Note>, UnknownNote>)
    ensures r.Success? <==> forall i | 0 <= i < |tokens| :: Parse(tokens[i]).Success?
    ensures r.Success? ==> |r.value| == |tokens|
    ensures r.Success? ==> forall i | 0 <= i < |tokens| :: Parse(tokens[i]) == Success(r.value[i])
    ensures r.Failure? ==> exists k: nat :: FirstUnparseable(tokens, k) && r.error == UnknownNote(tokens[k])
  {
    if tokens == [] then Success([])
    else
      match Parse(tokens[0])
      case Failure(e) =>
        assert FirstUnparseable(tokens, 0);
        Failure(e)
      case Success(n) =>
        match ParseAll(tokens[1..])
        case Failure(e) =>
          var k: nat :| FirstUnparseable(tokens[1..], k) && e == UnknownNote(tokens[1..][k]);
          assert FirstUnparseable(tokens, k + 1);
          Failure(e)
        case Success(ns) =>
          Success([n] + ns)
  }

  /** The names of a sequence of notes, one string per note. */
  function ToStrs(content: seq<Note>): (r: seq<string>)
    ensures |r| == |content|
    ensures forall i | 0 <= i < |content| :: Parse(r[i]) == Success(content[i])
  {
    if content == [] then []
    else
      ParseToStr(content[0]);
      [ToStr(content[0])] + ToStrs(content[1..])
  }

  /** Printing notes and parsing them again gives the same notes. */
  lemma {:induction false} ParseAllToStrs(content: seq<Note>)
    ensures ParseAll(ToStrs(content)) == Success(content)
  {
    if content != [] {
      ParseAllToStrs(content[1..]);
      ParseToStr(content[0]);
      var tokens := ToStrs(content);
      assert tokens[0] == ToStr(content[0]) && tokens[1..] == ToStrs(content[1..]);
      assert content == [content[0]] + content[1..];
    }
  }

  /** Parsing tokens and printing the notes again gives the same tokens. */
  lemma ToStrsParseAll(tokens: seq<string>)
    requires ParseAll(tokens).Success?
    ensures ToStrs(ParseAll(tokens).value) == tokens
  {
  }

  /** The cursor after one beat on a pattern of length `len`. */
  function NextCursor(current: nat, len: nat): (c: nat)
    requires len > 0
    ensures c < len
  {
    (current + 1) % len
  }

  /** The cursor after `n` beats of a fresh track. */
  function CursorAfter(n: nat, len: nat): (c: nat)
    requires len > 0
    ensures c < len
  {
    if n == 0 then 0 else NextCursor(CursorAfter(n - 1, len), len)
  }

  /** After `n` beats from the start, the cursor is `n` modulo the pattern length. */
  lemma {:induction false} CursorAfterIsModulo(n: nat, len: nat)
    requires len > 0
    ensures CursorAfter(n, len) == n % len
  {
    if n > 0 {
      var prev := CursorAfter(n - 1, len);
      CursorAfterIsModulo(n - 1, len);
      assert CursorAfter(n, len) == NextCursor(prev, len) == (prev + 1) % len;
      ModSucc(n - 1, len);
    }
  }

  /** Stepping a remainder on by one agrees with taking the remainder of the successor. */
  lemma ModSucc(m: nat, len: nat)
    requires len > 0
    ensures (m % len + 1) % len == (m + 1) % len
  {
    var q, r := m / len, m % len;
    assert m == q * len + r;
    if r + 1 < len {
      ModUnique(r + 1, len, 0, r + 1);
      ModUnique(m + 1, len, q, r + 1);
    } else {
      ModUnique(len, len, 1, 0);
      assert (q + 1) * len == q * len + len;
      ModUnique(m + 1, len, q + 1, 0);
    }
  }

  /** A remainder in range determines `%`. */
  lemma ModUnique(m: nat, len: nat, q: int, r: int)
    requires len > 0 && 0 <= r < len && m == q * len + r
    ensures m % len == r
  {
    var q', r' := m / len, m % len;
    assert q' * len + r' == q * len + r;
    if q' != q {
      var d := if q' > q then q' - q else q - q';
      assert d * len == (if q' > q then q' * len - q * len else q * len - q' * len);
      MulAtLeast(d, len);
    }
  }

  lemma MulAtLeast(d: int, len: nat)
    requires d >= 1
    ensures d * len >= len
  {
    assert d * len == (d - 1) * len + len;
  }

  /** Whether `elapsed` exceeds the base interval `beat` divided by `tempo`. */
  predicate BeatDue(elapsed: nat, beat: nat, tempo: real)
    requires tempo > 0.0
    ensures BeatDue(elapsed, beat, tempo) <==> elapsed as real * tempo > beat as real
  {
    elapsed as real > beat as real / tempo
  }

  /** A higher tempo never makes a due beat wait longer. */
  lemma TempoMonotone(elapsed: nat, beat: nat, tempo: real, tempo': real)
    requires 0.0 < tempo <= tempo'
    ensures BeatDue(elapsed, beat, tempo) ==> BeatDue(elapsed, beat, tempo')
  {
  }

  /** Doubling the tempo halves the wait. */
  lemma DoubleTempoHalvesWait(elapsed: nat, beat: nat, tempo: real)
    requires tempo > 0.0
    ensures BeatDue(2 * elapsed, beat, tempo) <==> BeatDue(elapsed, beat, 2.0 * tempo)
  {
  }

  class Track<S> {
    var content: seq<Note>
    var current: nat
    var lastBeat: int
    var noteScale: Option<NoteScale<S>>
    var tempo: real
    /** Every note handed to the note scale, in order. */
    ghost var played: seq<Note>

    /** The cursor stays inside the pattern, and a bound scale is a usable one. */
    ghost predicate Valid()
      reads this
    {
      && (current == 0 || current < |content|)
      && (noteScale.Some? ==> noteScale.value.Valid())
    }

    /** A track over `content` as `TryFrom` creates it. */
    constructor (content: seq<Note>, now: int)
      ensures Valid()
      ensures this.content == content && current == 0 && lastBeat == now
      ensures noteScale == None && tempo == 0.0 && played == []
    {
      this.content := content;
      current := 0;
      lastBeat := now;
      noteScale := None;
      tempo := 0.0;
      played := [];
    }

    /** Builds a track from note names, failing with the error of the first bad name. */
    static method TryFrom(tokens: seq<string>, now: int) returns (r: Result<Track<S>, UnknownNote>)
      ensures r.Success? <==> ParseAll(tokens).Success?
      ensures r.Failure? ==> r.error == ParseAll(tokens).error
      ensures r.Success? ==> fresh(r.value) && r.value.Valid()
      ensures r.Success? ==> r.value.content == ParseAll(tokens).value && r.value.Length() == |tokens|
      ensures r.Success? ==> r.value.current == 0 && r.value.lastBeat == now && r.value.played == []
      ensures r.Success? ==> r.value.noteScale == None && r.value.tempo == 0.0
    {
      var content :- ParseAll(tokens);
      var t := new Track(content, now);
      r := Success(t);
    }

    /** The note names of the pattern, which parse back to the pattern. */
    function Strings(): (r: seq<string>)
      reads this
      ensures ParseAll(r) == Success(content)
    {
      ParseAllToStrs(content);
      ToStrs(content)
    }

    /** The number of steps in the pattern. */
    function Length(): (n: nat)
      reads this
      ensures n == |Strings()|
    {
      |content|
    }

    /** Sets the tempo and nothing else. */
    method SetTempo(tempo: real)
      requires Valid()
      modifies this`tempo
      ensures Valid() && this.tempo == tempo
    {
      this.tempo := tempo;
    }

    /** Binds (or unbinds) the note scale and nothing else. */
    method SetNoteScale(noteScale: Option<NoteScale<S>>)
      requires Valid()
      requires noteScale.Some? ==> noteScale.value.Valid()
      modifies this`noteScale
      ensures Valid() && this.noteScale == noteScale
    {
      this.noteScale := noteScale;
    }

    /** Whether more than the base interval `beat`, scaled down by the tempo, has passed since the last beat. */
    function ShouldBeat(now: int, beat: nat): (due: bool)
      reads this
      requires tempo > 0.0
      ensures due <==> (now - lastBeat) as real * tempo > beat as real
    {
      BeatDue(if now > lastBeat then now - lastBeat else 0, beat, tempo)
    }

    /**
     * Records the beat time, moves the cursor one step with wrap-around and
     * plays the note under the new cursor through the scale, if one is bound.
     */
    method Beat(now: int, player: AudioPlayerInterface<S>) returns (r: Outcome<SendError>)
      requires Valid()
      requires |content| > 0
      modifies this`lastBeat, this`current, this`played, player`sent
      ensures Valid()
      ensures lastBeat == now
      ensures current == NextCursor(old(current), |content|) && current < |content|
      ensures played == old(played) + (if noteScale.Some? then [content[current]] else [])
      ensures r.Fail? <==> noteScale.Some? && !player.receiverAlive
      ensures player.sent == old(player.sent) +
        (if noteScale.Some? && player.receiverAlive then [Play(noteScale.value.SoundOf(content[current]))] else [])
    {
      lastBeat := now;
      current := current + 1;
      current := current % |content|;
      r := Pass;
      if noteScale.Some? {
        played := played + [content[current]];
        r := noteScale.value.PlayNote(content[current], player);
      }
    }

    /** Moves the cursor back to the start and touches nothing else. */
    method Restart()
      requires Valid()
      modifies this`current
      ensures Valid() && current == 0
    {
      current := 0;
    }
  }

  /**
   * The restart key's effect on a track `["C", "D", "E"]`: after five beats the
   * cursor is on step 2; restarting puts it back on step 0 and keeps the last
   * beat time, so the next beat plays the note on step 1.
   */
  method RestartScenario(start: int) returns (replayed: Note, cursorBefore: nat, keptBeat: bool, submitted: Command<int>)
    ensures cursorBefore == 2 && keptBeat && replayed == D
    ensures submitted == Play(IndexOf(D))
  {
    var player := new AudioPlayerInterface<int>();
    var track := new Track<int>([C, D, E], start);
    track.SetTempo(1.0);
    var wave: Note -> int := n => IndexOf(n);
    track.SetNoteScale(Some(Synthesized(wave)));
    var i := 0;
    while i < 5
      invariant 0 <= i <= 5
      invariant track.Valid() && track.content == [C, D, E] && track.noteScale == Some(Synthesized(wave))
      invariant track.current == i % 3
      invariant player.receiverAlive
    {
      ModSucc(i, 3);
      var _ := track.Beat(start + i, player);
      i := i + 1;
    }
    cursorBefore := track.current;
    var lastBeat := track.lastBeat;
    track.Restart();
    keptBeat := track.lastBeat == lastBeat;
    var _ := track.Beat(start + 5, player);
    replayed := track.content[track.current];
    assert track.played[|track.played| - 1] == replayed;
    submitted := player.sent[|player.sent| - 1];
  }
}
