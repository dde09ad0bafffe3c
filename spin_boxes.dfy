/**
  The spin boxes of custom_widgets.py whose leftmost value is shown as the word "mute":
  `MuteSpinBox` (offsets -25..24, -25 is "mute") and `GroundNoteSpinBox` (notes 47..72, 47 is
  "mute"). Both render a value as text, read text back as a value and validate typed text;
  the word is recognised in any letter case.
 */
module SpinBoxes {
  import opened Opt
  import opened Decimal

  /** A spin box over `lo..hi` whose value `sentinel` reads as "mute". */
  datatype SentinelBox = SentinelBox(sentinel: int, lo: int, hi: int)

  /** `MuteSpinBox`: the range set by `setRange(-25, 24)`, -25 being "mute". */
  const MuteBox: SentinelBox := SentinelBox(-25, -25, 24)

  /** `GroundNoteSpinBox`: the range set by `setRange(47, 72)`, 47 being "mute". */
  const GroundNoteBox: SentinelBox := SentinelBox(47, 47, 72)

  const MuteWord: string := "mute"

  /** `str.lower` on one character, for the ASCII letters. */
  function Lower(c: char): (r: char)
    ensures 'A' <= c <= 'Z' ==> r as int == c as int + 32
    ensures !('A' <= c <= 'Z') ==> r == c
  {
    if 'A' <= c <= 'Z' then (c as int + 32) as char else c
  }

  /** `text.lower()`. */
  function LowerText(s: string): (r: string)
    ensures |r| == |s|
    ensures forall i :: 0 <= i < |s| ==> r[i] == Lower(s[i])
  {
    if s == [] then [] else [Lower(s[0])] + LowerText(s[1..])
  }

  /** `text.lower() == "mute"`. */
  predicate IsMuteText(text: string) {
    LowerText(text) == MuteWord
  }

  /** `textFromValue(value)`: the word for the sentinel, `str(value)` for every other value. */
  function TextFromValue(box: SentinelBox, value: int): string {
    if value == box.sentinel then MuteWord else IntToString(value)
  }

  /**
    `valueFromText(text)`: the sentinel for the word in any case, else `int(text)`; text that
    `int` rejects raises, here `None`.
   */
  function ValueFromText(box: SentinelBox, text: string): Option<int> {
    if IsMuteText(text) then Some(box.sentinel) else ParseInt(text)
  }

  /** The three answers of a `QValidator`. */
  datatype ValidatorState = Invalid | Intermediate | Acceptable

  /** What `validate` returns: the verdict with the (possibly corrected) text and cursor. */
  datatype Validation = Validation(state: ValidatorState, text: string, pos: int)

  /**
    `validate(text, pos)`: the word in any case is accepted as typed, with the cursor where it
    was; any other text goes to the spin box's own validation, `base`.
   */
  function Validate(text: string, pos: int, base: (string, int) -> Validation): Validation {
    if IsMuteText(text) then Validation(Acceptable, text, pos) else base(text, pos)
  }

  // ---------------------------------------------------------------------------------------
  // Properties
  // ---------------------------------------------------------------------------------------

  /** Lower-casing a character gives 'm' (or 'u', 't', 'e') exactly for that letter in either case. */
  lemma LowerIsLetter(c: char, l: char)
    requires 'a' <= l <= 'z'
    ensures Lower(c) == l <==> c == l || c as int == l as int - 32
  {
    if c as int == l as int - 32 {
      assert 'A' <= c <= 'Z';
    }
  }

  /** The word is recognised exactly when each of its four letters is there in either case. */
  lemma {:induction false} MuteTextCases(text: string)
    ensures IsMuteText(text) <==>
      && |text| == 4
      && (text[0] == 'm' || text[0] == 'M')
      && (text[1] == 'u' || text[1] == 'U')
      && (text[2] == 't' || text[2] == 'T')
      && (text[3] == 'e' || text[3] == 'E')
  {
    if |text| == 4 {
      LowerIsLetter(text[0], 'm');
      LowerIsLetter(text[1], 'u');
      LowerIsLetter(text[2], 't');
      LowerIsLetter(text[3], 'e');
      var l := LowerText(text);
      assert l == MuteWord <==> l[0] == 'm' && l[1] == 'u' && l[2] == 't' && l[3] == 'e';
    }
  }

  /** The decimal text of a number is never the word: it starts with a digit or a minus sign. */
  lemma NumberIsNotMute(v: int)
    ensures !IsMuteText(IntToString(v))
  {
    var s := IntToString(v);
    assert Lower(s[0]) == s[0];
    assert LowerText(s)[0] != 'm';
  }

  /** The box shows the word exactly for the sentinel. */
  lemma TextIsMuteIffSentinel(box: SentinelBox, v: int)
    ensures IsMuteText(TextFromValue(box, v)) <==> v == box.sentinel
  {
    if v != box.sentinel {
      NumberIsNotMute(v);
    } else {
      MuteTextCases(MuteWord);
    }
  }

  /** Reading back what the box shows gives the value shown, for every value. */
  lemma RoundTrip(box: SentinelBox, v: int)
    ensures ValueFromText(box, TextFromValue(box, v)) == Some(v)
  {
    TextIsMuteIffSentinel(box, v);
    if v != box.sentinel {
      IntToStringRoundTrip(v);
    }
  }

  /** In particular over the two boxes' ranges. */
  lemma BoxesRoundTrip(v: int)
    ensures MuteBox.lo <= v <= MuteBox.hi ==> ValueFromText(MuteBox, TextFromValue(MuteBox, v)) == Some(v)
    ensures GroundNoteBox.lo <= v <= GroundNoteBox.hi ==>
      ValueFromText(GroundNoteBox, TextFromValue(GroundNoteBox, v)) == Some(v)
  {
    RoundTrip(MuteBox, v);
    RoundTrip(GroundNoteBox, v);
  }

  /** The word in any case reads as the sentinel. */
  lemma AnyCaseReadsSentinel(box: SentinelBox, text: string)
    requires |text| == 4
    requires text[0] in "mM" && text[1] in "uU" && text[2] in "tT" && text[3] in "eE"
    ensures ValueFromText(box, text) == Some(box.sentinel)
  {
    MuteTextCases(text);
  }

  /**
    `validate` accepts the word in any case and leaves text and cursor as they were; every
    other text gets exactly the base validation's answer.
   */
  lemma ValidateSpec(text: string, pos: int, base: (string, int) -> Validation)
    ensures var r := Validate(text, pos, base);
      && ((|text| == 4 && text[0] in "mM" && text[1] in "uU" && text[2] in "tT" && text[3] in "eE")
          ==> r == Validation(Acceptable, text, pos))
      && (!IsMuteText(text) ==> r == base(text, pos))
  {
    MuteTextCases(text);
  }

  /** A number typed in decimal is never taken for the word, so it gets the base validation. */
  lemma ValidateNumber(v: int, pos: int, base: (string, int) -> Validation)
    ensures Validate(IntToString(v), pos, base) == base(IntToString(v), pos)
  {
    NumberIsNotMute(v);
  }
}
