/**
 * The in-memory note store behind the `create-note` and `list-notes` tools: a process-wide
 * list of strings that `create-note` appends to, and the two reply texts. Each reply text has
 * a parser beside it, and a round-trip lemma says the reply carries exactly what it reports.
 */
module Notes {
  import opened Wrappers
  import opened Text

  /** The `list-notes` reply for an empty store. */
  const NoNotesText: string := "\U{1F4DD} No notes found yet."
  /** The first line of the `list-notes` reply for a non-empty store. */
  const NotesHeader: string := "\U{1F5D2} Notes:\n"
  const SavedPrefix: string := "Note saved: \""
  const TotalInfix: string := "\" (total: "

  /** The length of the longest all-digit suffix of `s`. */
  function TrailingDigits(s: string): (n: nat)
    ensures n <= |s| && AllDigits(s[|s| - n..])
    ensures n < |s| ==> !IsDigit(s[|s| - n - 1])
  {
    if s == [] || !IsDigit(s[|s| - 1]) then 0
    else
      var n := TrailingDigits(s[..|s| - 1]);
      assert s[|s| - (n + 1)..] == s[..|s| - 1][|s| - 1 - n..] + [s[|s| - 1]];
      n + 1
  }

  lemma {:induction false} TrailingDigitsAfter(a: string, d: string)
    requires AllDigits(d)
    requires a == [] || !IsDigit(a[|a| - 1])
    ensures TrailingDigits(a + d) == |d|
  {
    if d == [] {
      assert a + d == a;
    } else {
      assert (a + d)[..|a + d| - 1] == a + d[..|d| - 1];
      TrailingDigitsAfter(a, d[..|d| - 1]);
    }
  }

  /** Reads a `create-note` reply back into the content and the total it reports. */
  function ParseSavedText(r: string): Option<(string, nat)> {
    if |r| == 0 || r[|r| - 1] != ')' then None
    else
      var body := r[..|r| - 1];
      var n := TrailingDigits(body);
      var head := body[..|body| - n];
      if n == 0 || |head| < |SavedPrefix| + |TotalInfix| then None
      else if head[..|SavedPrefix|] != SavedPrefix || head[|head| - |TotalInfix|..] != TotalInfix then None
      else Some((head[|SavedPrefix|..|head| - |TotalInfix|], DigitsValue(body[|body| - n..])))
  }

  /**
   * The `create-note` reply: the content, quoted, and the store's new size. Read back, it names
   * exactly that content and that total, whatever characters the content holds.
   */
  function SavedText(content: string, total: nat): (r: string)
    ensures ParseSavedText(r) == Some((content, total))
  {
    var digits, head := NatToString(total), SavedPrefix + content + TotalInfix;
    var r := head + digits + ")";
    var body := r[..|r| - 1];
    assert body == head + digits;
    assert TrailingDigits(body) == |digits| by {
      assert head[|head| - 1] == ' ';
      TrailingDigitsAfter(head, digits);
    }
    assert body[..|body| - |digits|] == head && body[|body| - |digits|..] == digits;
    assert head[..|SavedPrefix|] == SavedPrefix && head[|head| - |TotalInfix|..] == TotalInfix;
    assert head[|SavedPrefix|..|head| - |TotalInfix|] == content;
    NatToStringRoundTrip(total);
    r
  }

  /** One line of the listing: `${i + 1}. ${note}` with the label `k` standing for `i + 1`. */
  function Line(k: nat, note: string): string {
    NatToString(k) + ". " + note
  }

  /** `notes.map((note, i) => ...)` with the labels counting up from `first`. */
  function NumberedLines(notes: seq<string>, first: nat): (lines: seq<string>)
    ensures |lines| == |notes|
    ensures forall i :: 0 <= i < |notes| ==> lines[i] == Line(first + i, notes[i])
    decreases |notes|
  {
    if notes == [] then [] else [Line(first, notes[0])] + NumberedLines(notes[1..], first + 1)
  }

  /** The `list-notes` reply: a fixed message when the store is empty, otherwise a header and one numbered line per note. */
  function NotesText(notes: seq<string>): (r: string)
    ensures r == NoNotesText <==> notes == []
    ensures notes != [] ==> |NotesHeader| <= |r| && r[..|NotesHeader|] == NotesHeader
  {
    if |notes| == 0 then NoNotesText
    else
      var r := NotesHeader + Join(NumberedLines(notes, 1), "\n");
      assert r[0] != NoNotesText[0];
      r
  }

  /** Removes the labels `k. `, `k+1. `, ... from consecutive lines; fails on a line lacking its label. */
  function StripLabels(lines: seq<string>, k: nat): Option<seq<string>>
    decreases |lines|
  {
    if lines == [] then Some([])
    else
      var prefix := NatToString(k) + ". ";
      if |lines[0]| < |prefix| || lines[0][..|prefix|] != prefix then None
      else match StripLabels(lines[1..], k + 1)
        case None => None
        case Some(rest) => Some([lines[0][|prefix|..]] + rest)
  }

  lemma {:induction false} StripNumberedLines(notes: seq<string>, k: nat)
    ensures StripLabels(NumberedLines(notes, k), k) == Some(notes)
    decreases |notes|
  {
    if notes != [] {
      var lines := NumberedLines(notes, k);
      var prefix := NatToString(k) + ". ";
      assert lines[0] == prefix + notes[0];
      assert lines[0][..|prefix|] == prefix;
      assert lines[0][|prefix|..] == notes[0];
      StripNumberedLines(notes[1..], k + 1);
      assert [notes[0]] + notes[1..] == notes;
    }
  }

  /** Stripping the label `k. ` from a line labelled `k` gives back its note. */
  lemma LineRoundTrip(k: nat, note: string)
    ensures StripLabels([Line(k, note)], k) == Some([note])
  {
    assert NumberedLines([note], k) == [Line(k, note)];
    StripNumberedLines([note], k);
  }

  /** Reads a `list-notes` reply back into the list of notes. */
  function ParseNotesText(r: string): Option<seq<string>> {
    if r == NoNotesText then Some([])
    else if |NotesHeader| <= |r| && r[..|NotesHeader|] == NotesHeader then
      StripLabels(Split(r[|NotesHeader|..], '\n'), 1)
    else None
  }

  /** The `list-notes` reply lists exactly the stored notes, in insertion order, as long as no note holds a line break. */
  lemma NotesTextRoundTrip(notes: seq<string>)
    requires forall i :: 0 <= i < |notes| ==> '\n' !in notes[i]
    ensures ParseNotesText(NotesText(notes)) == Some(notes)
  {
    if notes != [] {
      var lines := NumberedLines(notes, 1);
      forall i | 0 <= i < |lines| ensures '\n' !in lines[i] {
        var digits := NatToString(1 + i);
        assert lines[i] == digits + ". " + notes[i];
        assert '\n' !in digits;
      }
      var r := NotesText(notes);
      assert r[|NotesHeader|..] == Join(lines, "\n");
      SplitJoin(lines, '\n');
      StripNumberedLines(notes, 1);
    }
  }

  /** Notes holding line breaks make the reply ambiguous: one note reads the same as two. */
  lemma NotesTextAmbiguous()
    ensures NotesText(["a\n2. b"]) == NotesText(["a", "b"])
  {
    assert NatToString(1) == "1" && NatToString(2) == "2";
    assert Line(1, "a\n2. b") == "1. a\n2. b";
    assert NumberedLines(["a", "b"], 1) == [Line(1, "a"), Line(2, "b")];
  }

  lemma NumberedLinesSnoc(notes: seq<string>, x: string, k: nat)
    ensures NumberedLines(notes + [x], k) == NumberedLines(notes, k) + [Line(k + |notes|, x)]
  {
  }

  /** After one more `create-note`, the listing is the previous listing plus one line numbered with the new size. */
  lemma NotesTextSnoc(notes: seq<string>, x: string)
    requires notes != []
    ensures NotesText(notes + [x]) == NotesText(notes) + "\n" + Line(|notes| + 1, x)
  {
    NumberedLinesSnoc(notes, x, 1);
    JoinSnoc(NumberedLines(notes, 1), Line(|notes| + 1, x), "\n");
  }

  /** The process-wide note list the two tools share. */
  class NoteStore {
    var notes: seq<string>

    constructor ()
      ensures notes == []
    {
      notes := [];
    }

    /** `create-note`: appends the content and reports it with the new total. */
    method CreateNote(content: string) returns (text: string)
      modifies this
      ensures notes == old(notes) + [content]
      ensures text == SavedText(content, |notes|)
    {
      notes := notes + [content];
      text := SavedText(content, |notes|);
    }

    /** `list-notes`: renders the store and leaves it as it is. */
    method ListNotes() returns (text: string)
      ensures text == NotesText(notes)
    {
      text := NotesText(notes);
    }
  }
}
