/**
 * The seven natural pitches of the sequencer, their one-letter names and the
 * error raised for any other name.
 */
module Notes {
  import opened Wrappers

  datatype Note = C | D | E | F | G | A | B

  /** The error for a string that names no note; it keeps the rejected input. */
  datatype UnknownNote = UnknownNote(input: string)

  /** Every note once, in the canonical order used to build sample banks. */
  const List: seq<Note> := [C, D, E, F, G, A, B]

  /** The set of all notes. */
  const AllNotes: set<Note> := {C, D, E, F, G, A, B}

  /** The strings `Parse` accepts. */
  const Letters: set<string> := {"C", "D", "E", "F", "G", "A", "B"}

  const MessagePrefix: string := "The provided string '"
  const MessageSuffix: string := "' is unknown"

  /** The one-letter name of a note. */
  function ToStr(n: Note): (s: string)
    ensures |s| == 1
    ensures s in Letters
  {
    match n
    case C => "C"
    case D => "D"
    case E => "E"
    case F => "F"
    case G => "G"
    case A => "A"
    case B => "B"
  }

  /** Reads a note from its one-letter name; any other string is an error carrying that string. */
  function Parse(s: string): (r: Result<Note, UnknownNote>)
    ensures r.Success? <==> s in Letters
    ensures r.Success? ==> ToStr(r.value) == s
    ensures r.Failure? ==> r.error == UnknownNote(s) && forall n :: ToStr(n) != s
  {
    if s == "C" then Success(C)
    else if s == "D" then Success(D)
    else if s == "E" then Success(E)
    else if s == "F" then Success(F)
    else if s == "G" then Success(G)
    else if s == "A" then Success(A)
    else if s == "B" then Success(B)
    else Failure(UnknownNote(s))
  }

  /** Printing a note and parsing the result gives the note back. */
  lemma ParseToStr(n: Note)
    ensures Parse(ToStr(n)) == Success(n)
  {
  }

  /** Distinct notes have distinct names. */
  lemma ToStrInjective(n: Note, m: Note)
    ensures ToStr(n) == ToStr(m) ==> n == m
  {
  }

  /** `Display for Note`: writes exactly the note's name. */
  function Display(n: Note): (s: string)
    ensures Parse(s) == Success(n)
  {
    ParseToStr(n);
    ToStr(n)
  }

  /** `DisplayStr for Note`, the form a filename template sees: the note's name. */
  function DisplayStr(n: Note): (s: string)
    ensures Parse(s) == Success(n)
  {
    ParseToStr(n);
    ToStr(n)
  }

  /** `Display for UnknownNote`: the rejected input quoted inside a fixed sentence. */
  function Message(e: UnknownNote): (m: string)
    ensures |m| == |MessagePrefix| + |e.input| + |MessageSuffix|
    ensures m[..|MessagePrefix|] == MessagePrefix
    ensures m[|MessagePrefix|..|MessagePrefix| + |e.input|] == e.input
    ensures m[|MessagePrefix| + |e.input|..] == MessageSuffix
  {
    MessagePrefix + e.input + MessageSuffix
  }

  /** The message determines the rejected input. */
  lemma MessageInjective(e: UnknownNote, e': UnknownNote)
    ensures Message(e) == Message(e') ==> e == e'
  {
  }

  /** The position of a note in `List`. */
  function IndexOf(n: Note): (k: nat)
    ensures k < |List| && List[k] == n
  {
    match n
    case C => 0
    case D => 1
    case E => 2
    case F => 3
    case G => 4
    case A => 5
    case B => 6
  }

  /** Entries of `List` at different positions are different notes. */
  lemma ListDistinct()
    ensures forall i, j | 0 <= i < |List| && 0 <= j < |List| :: List[i] == List[j] ==> i == j
  {
  }

  /** `List` has seven entries and holds every note exactly once. */
  lemma ListEnumeratesNotes()
    ensures |List| == 7
    ensures forall n: Note :: multiset(List)[n] == 1
  {
    ListDistinct();
    forall n: Note ensures multiset(List)[n] == 1 {
      DistinctOccursOnce(List, IndexOf(n));
    }
  }

  /** In a sequence without repetitions, each element occurs exactly once. */
  lemma {:induction false} DistinctOccursOnce<T>(s: seq<T>, k: nat)
    requires k < |s|
    requires forall i, j | 0 <= i < |s| && 0 <= j < |s| :: s[i] == s[j] ==> i == j
    ensures multiset(s)[s[k]] == 1
  {
    var last := |s| - 1;
    assert s == s[..last] + [s[last]];
    if k == last {
      assert s[k] !in s[..last];
    } else {
      DistinctOccursOnce(s[..last], k);
    }
  }

  /** There are exactly seven notes, as many as `List` has entries. */
  lemma AllNotesCount()
    ensures forall n: Note :: n in AllNotes
    ensures |AllNotes| == |List| == 7
  {
    forall n: Note ensures n in AllNotes {
      match n
      case C => case D => case E => case F => case G => case A => case B =>
    }
    assert AllNotes == {C} + {D} + {E} + {F} + {G} + {A} + {B};
    assert |{C} + {D}| == 2;
    assert |{C} + {D} + {E}| == 3;
    assert |{C} + {D} + {E} + {F}| == 4;
    assert |{C} + {D} + {E} + {F} + {G}| == 5;
    assert |{C} + {D} + {E} + {F} + {G} + {A}| == 6;
  }
}
