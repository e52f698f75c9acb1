/** The `SketchDataCollectionSetup` app: `saveStudy` checks the study form and builds the
    study record, and `loadStudy` puts a saved study back into the form. The form is given
    as a value: the text of each input box, the display radio buttons, the randomise box
    and one row per session entry (its label box and its file name box). */
module StudySetup {
  import opened SketchModel
  import opened JsText

  const DisplayTrace := "trace"
  const DisplayPreview := "preview"
  const DisplayText := "text"

  /** A study entry `{label, filename}`. */
  datatype Entry = Entry(shapeLabel: string, filename: string)

  /** One `displayType` radio button. */
  datatype Radio = Radio(value: string, checked: bool)

  /** The setup form as `saveStudy` reads it: `titleEntry`, `countEntry`, `randomizeBox`,
      the radios, the entry rows in container order, and the two canvas boxes. */
  datatype Form = Form(title: string, count: string, random: bool, displays: seq<Radio>,
                       rows: seq<Entry>, canvasWidth: string, canvasHeight: string)

  /** The record written to `study.json`. A display of `None` is a form with no radio
      checked; `NaN` is a canvas box that held no number. */
  datatype Study = Study(title: string, count: int, random: bool, display: Option<string>,
                         canvasWidth: Parsed, canvasHeight: Parsed, entries: seq<Entry>)

  /** The alerts `saveStudy` stops at. `MissingTitle` is only raised by the intended check. */
  datatype SaveError =
    | MissingTitle | MissingCount | CountNotANumber | CountNonPositive
    | MissingLabel | MissingFilename | NoEntries
    | WidthNotANumber | WidthNonPositive | HeightNotANumber | HeightNonPositive

  datatype Result<T> = Ok(value: T) | Err(error: SaveError)

  //// The display type

  /** The value of the first checked radio, if any. */
  function FirstChecked(radios: seq<Radio>): Option<string> {
    if radios == [] then None
    else if radios[0].checked then Some(radios[0].value)
    else FirstChecked(radios[1..])
  }

  /** The display is the value of a checked radio with no checked radio before it, and
      there is none exactly when no radio is checked. */
  lemma {:induction false} FirstCheckedSpec(radios: seq<Radio>)
    ensures FirstChecked(radios).None? <==> forall i :: 0 <= i < |radios| ==> !radios[i].checked
    ensures FirstChecked(radios).Some? ==>
      exists i :: (0 <= i < |radios| && radios[i].checked
        && radios[i].value == FirstChecked(radios).value
        && forall j :: 0 <= j < i ==> !radios[j].checked)
  {
    if radios != [] && !radios[0].checked {
      FirstCheckedSpec(radios[1..]);
      if FirstChecked(radios).Some? {
        var i :| 0 <= i < |radios[1..]| && radios[1..][i].checked
          && radios[1..][i].value == FirstChecked(radios).value
          && forall j :: 0 <= j < i ==> !radios[1..][j].checked;
        assert radios[i + 1].checked;
      }
      assert forall i :: 1 <= i < |radios| ==> radios[i] == radios[1..][i - 1];
    }
  }

  /** The radio loop of `saveStudy`, which breaks at the first checked button. */
  method CheckedDisplay(radios: seq<Radio>) returns (display: Option<string>)
    ensures display == FirstChecked(radios)
  {
    display := None;
    var i := 0;
    while i < |radios|
      invariant 0 <= i <= |radios|
      invariant FirstChecked(radios) == FirstChecked(radios[i..])
    {
      assert radios[i..][1..] == radios[i + 1..];
      if radios[i].checked {
        display := Some(radios[i].value);
        return;
      }
      i := i + 1;
    }
  }

  //// The entries

  /** A file name is asked for unless the display is `"text"`. */
  predicate NeedsFile(display: Option<string>) {
    display != Some(DisplayText)
  }

  /** The entry loop: the first row without a label, or (when a file is needed) without a
      file name, stops the save; the file name is kept only when it is needed. */
  function EntriesOf(rows: seq<Entry>, display: Option<string>): Result<seq<Entry>> {
    if rows == [] then Ok([])
    else if rows[0].shapeLabel == "" then Err(MissingLabel)
    else if NeedsFile(display) && rows[0].filename == "" then Err(MissingFilename)
    else
      var first := Entry(rows[0].shapeLabel, if NeedsFile(display) then rows[0].filename else "");
      match EntriesOf(rows[1..], display)
      case Err(e) => Err(e)
      case Ok(rest) => Ok([first] + rest)
  }

  predicate RowsComplete(rows: seq<Entry>, display: Option<string>) {
    forall i :: 0 <= i < |rows| ==>
      rows[i].shapeLabel != "" && (NeedsFile(display) ==> rows[i].filename != "")
  }

  /** The entries are accepted exactly when every row is complete; they are then the rows
      in order, with the file name blanked for the text display. */
  lemma {:induction false} EntriesOfSpec(rows: seq<Entry>, display: Option<string>)
    ensures EntriesOf(rows, display).Ok? <==> RowsComplete(rows, display)
    ensures EntriesOf(rows, display).Ok? ==>
      var es := EntriesOf(rows, display).value;
      && |es| == |rows|
      && forall i :: 0 <= i < |rows| ==>
           (es[i].shapeLabel == rows[i].shapeLabel
            && es[i].filename == (if NeedsFile(display) then rows[i].filename else ""))
    ensures EntriesOf(rows, display).Err? ==>
      EntriesOf(rows, display).error in {MissingLabel, MissingFilename}
  {
    if rows != [] {
      EntriesOfSpec(rows[1..], display);
      assert forall i :: 1 <= i < |rows| ==> rows[i] == rows[1..][i - 1];
    }
  }

  //// Saving

  /** A number box holding a positive integer. */
  predicate Positive(v: Parsed) {
    v.Num? && v.n > 0
  }

  /** `saveStudy` as written. The title check at its head compares `label`, not `title`,
      with `""`; `label` is the loop variable declared further down, hoisted and still
      `undefined` there, so the check never fires and no title is refused. */
  function StudyOf(form: Form): Result<Study> {
    if form.count == "" then Err(MissingCount)
    else StudyFrom(form, ParseInt(form.count), ParseInt(form.canvasWidth), ParseInt(form.canvasHeight))
  }

  /** The checks after the empty count box, on what `parseInt` made of the count and the
      canvas boxes. */
  function StudyFrom(form: Form, count: Parsed, w: Parsed, h: Parsed): Result<Study> {
    if count.NaN? then Err(CountNotANumber)
    else if count.n <= 0 then Err(CountNonPositive)
    else
      var display := FirstChecked(form.displays);
      match EntriesOf(form.rows, display)
      case Err(e) => Err(e)
      case Ok(entries) =>
        if entries == [] then Err(NoEntries)
        else if display == Some(DisplayText) && w.NaN? then Err(WidthNotANumber)
        else if display == Some(DisplayText) && w.n <= 0 then Err(WidthNonPositive)
        else if display == Some(DisplayText) && h.NaN? then Err(HeightNotANumber)
        else if display == Some(DisplayText) && h.n <= 0 then Err(HeightNonPositive)
        else Ok(Study(form.title, count.n, form.random, display, w, h, entries))
  }

  /** `saveStudy(form)`: the checks in source order, each an early return, with the title
      check testing the title box as its alert says (see `IntendedStudyOf`). */
  method SaveStudy(form: Form) returns (r: Result<Study>)
    ensures r == IntendedStudyOf(form)
  {
    if form.title == "" {
      return Err(MissingTitle);
    }
    if form.count == "" {
      return Err(MissingCount);
    }
    var count := ParseInt(form.count);
    if count.NaN? {
      return Err(CountNotANumber);
    }
    if count.n <= 0 {
      return Err(CountNonPositive);
    }
    var display := CheckedDisplay(form.displays);
    var collected := CollectEntries(form.rows, display);
    if collected.Err? {
      return Err(collected.error);
    }
    var entries := collected.value;
    if entries == [] {
      return Err(NoEntries);
    }
    var w := ParseInt(form.canvasWidth);
    var h := ParseInt(form.canvasHeight);
    if display == Some(DisplayText) {
      if w.NaN? {
        return Err(WidthNotANumber);
      }
      if w.n <= 0 {
        return Err(WidthNonPositive);
      }
      if h.NaN? {
        return Err(HeightNotANumber);
      }
      if h.n <= 0 {
        return Err(HeightNonPositive);
      }
    }
    r := Ok(Study(form.title, count.n, form.random, display, w, h, entries));
  }

  /** The entry loop of `saveStudy`, which stops at the first incomplete row. */
  method CollectEntries(rows: seq<Entry>, display: Option<string>) returns (r: Result<seq<Entry>>)
    ensures r == EntriesOf(rows, display)
  {
    var entries: seq<Entry> := [];
    var i := 0;
    assert rows[i..] == rows;
    PrependNothing(EntriesOf(rows, display));
    while i < |rows|
      invariant 0 <= i <= |rows|
      invariant EntriesOf(rows, display) == Prepend(entries, EntriesOf(rows[i..], display))
    {
      var row := rows[i];
      assert rows[i..][1..] == rows[i + 1..];
      if row.shapeLabel == "" {
        return Err(MissingLabel);
      }
      var filename := "";
      if display != Some(DisplayText) {
        filename := row.filename;
        if filename == "" {
          return Err(MissingFilename);
        }
      }
      PrependStep(entries, Entry(row.shapeLabel, filename), EntriesOf(rows[i + 1..], display));
      entries := entries + [Entry(row.shapeLabel, filename)];
      i := i + 1;
    }
    assert rows[i..] == [];
    assert entries + [] == entries;
    r := Ok(entries);
  }

  /** Entries already collected in front of the outcome of the rest of the loop. */
  function Prepend(done: seq<Entry>, rest: Result<seq<Entry>>): Result<seq<Entry>> {
    match rest
    case Err(e) => Err(e)
    case Ok(es) => Ok(done + es)
  }

  lemma PrependNothing(rest: Result<seq<Entry>>)
    ensures Prepend([], rest) == rest
  {
    if rest.Ok? {
      assert [] + rest.value == rest.value;
    }
  }

  lemma PrependStep(done: seq<Entry>, e: Entry, rest: Result<seq<Entry>>)
    ensures Prepend(done + [e], rest) == Prepend(done, Prepend([e], rest))
  {
    if rest.Ok? {
      assert (done + [e]) + rest.value == done + ([e] + rest.value);
    }
  }

  /** What a form needs for `saveStudy` to write a study: a count box whose `parseInt` is
      positive, at least one row, every row complete, and positive canvas sizes when the
      display is `"text"`. */
  predicate Acceptable(form: Form) {
    var display := FirstChecked(form.displays);
    && Positive(ParseInt(form.count))
    && form.rows != []
    && RowsComplete(form.rows, display)
    && (display == Some(DisplayText) ==>
          Positive(ParseInt(form.canvasWidth)) && Positive(ParseInt(form.canvasHeight)))
  }

  /** A study is written exactly for the acceptable forms, and then it holds the title, the
      randomise flag, the parsed count, the first checked display, the parsed canvas boxes
      and one entry per row in row order. A count that is missing, not a number or not
      positive is reported before anything about the entries. */
  lemma StudyOfSpec(form: Form)
    ensures StudyOf(form).Ok? <==> Acceptable(form)
    ensures StudyOf(form).Ok? ==>
      var s, display := StudyOf(form).value, FirstChecked(form.displays);
      && s.title == form.title && s.random == form.random && s.display == display
      && s.count == ParseInt(form.count).n && s.count > 0
      && s.canvasWidth == ParseInt(form.canvasWidth) && s.canvasHeight == ParseInt(form.canvasHeight)
      && |s.entries| == |form.rows| > 0
      && forall i :: 0 <= i < |form.rows| ==>
           (s.entries[i].shapeLabel == form.rows[i].shapeLabel != ""
            && s.entries[i].filename == (if NeedsFile(display) then form.rows[i].filename else ""))
    ensures !Positive(ParseInt(form.count)) ==>
      StudyOf(form).Err? && StudyOf(form).error in {MissingCount, CountNotANumber, CountNonPositive}
  {
    StudyOfAccepts(form);
    if StudyOf(form).Ok? {
      StudyOfContents(form);
    }
    if form.count == "" {
      ParseIntNaN(form.count);
    }
  }

  lemma StudyOfAccepts(form: Form)
    ensures StudyOf(form).Ok? <==> Acceptable(form)
  {
    if form.count == "" {
      ParseIntNaN(form.count);
    } else {
      StudyFromAccepts(form, ParseInt(form.count), ParseInt(form.canvasWidth), ParseInt(form.canvasHeight));
    }
  }

  lemma StudyFromAccepts(form: Form, count: Parsed, w: Parsed, h: Parsed)
    ensures var display := FirstChecked(form.displays);
      StudyFrom(form, count, w, h).Ok? <==>
        && Positive(count) && form.rows != [] && RowsComplete(form.rows, display)
        && (display == Some(DisplayText) ==> Positive(w) && Positive(h))
  {
    EntriesOfSpec(form.rows, FirstChecked(form.displays));
  }

  lemma StudyOfContents(form: Form)
    requires StudyOf(form).Ok?
    ensures var s, display := StudyOf(form).value, FirstChecked(form.displays);
      && s.title == form.title && s.random == form.random && s.display == display
      && s.count == ParseInt(form.count).n && s.count > 0
      && s.canvasWidth == ParseInt(form.canvasWidth) && s.canvasHeight == ParseInt(form.canvasHeight)
      && |s.entries| == |form.rows| > 0
      && forall i :: 0 <= i < |form.rows| ==>
           (s.entries[i].shapeLabel == form.rows[i].shapeLabel != ""
            && s.entries[i].filename == (if NeedsFile(display) then form.rows[i].filename else ""))
  {
    StudyFromContents(form, ParseInt(form.count), ParseInt(form.canvasWidth), ParseInt(form.canvasHeight));
  }

  lemma StudyFromContents(form: Form, count: Parsed, w: Parsed, h: Parsed)
    requires StudyFrom(form, count, w, h).Ok?
    ensures var s, display := StudyFrom(form, count, w, h).value, FirstChecked(form.displays);
      && s.title == form.title && s.random == form.random && s.display == display
      && count.Num? && s.count == count.n && s.count > 0
      && s.canvasWidth == w && s.canvasHeight == h
      && |s.entries| == |form.rows| > 0
      && forall i :: 0 <= i < |form.rows| ==>
           (s.entries[i].shapeLabel == form.rows[i].shapeLabel != ""
            && s.entries[i].filename == (if NeedsFile(display) then form.rows[i].filename else ""))
  {
    EntriesOfSpec(form.rows, FirstChecked(form.displays));
  }

  /** The title check as written lets a form with an empty title through. */
  lemma EmptyTitleAccepted()
    ensures var form := Form("", "1", false, [Radio(DisplayText, true)], [Entry("cat", "")], "2", "3");
      StudyOf(form).Ok? && StudyOf(form).value.title == ""
  {
    var form := Form("", "1", false, [Radio(DisplayText, true)], [Entry("cat", "")], "2", "3");
    ExampleBoxes();
    assert StudyOf(form) == StudyFrom(form, Num(1), Num(2), Num(3));
    assert FirstChecked(form.displays) == Some(DisplayText);
    assert RowsComplete(form.rows, Some(DisplayText));
    StudyFromAccepts(form, Num(1), Num(2), Num(3));
  }

  /** The boxes of the example read as 1, 2 and 3. */
  lemma ExampleBoxes()
    ensures ParseInt("1") == Num(1) && ParseInt("2") == Num(2) && ParseInt("3") == Num(3)
  {
    ReadsAs(1);
    ReadsAs(2);
    ReadsAs(3);
    assert "1" == [DigitChar(1)] && "2" == [DigitChar(2)] && "3" == [DigitChar(3)];
  }

  /** The one-digit numbers read back as themselves. */
  lemma ReadsAs(d: nat)
    requires d < 10
    ensures ParseInt([DigitChar(d)]) == Num(d)
  {
    ParseIntOfWhole(d);
    assert IntToString(d) == [DigitChar(d)];
  }

  /** The check the alert `Missing a title` stands for: the title box, tested first. */
  function IntendedStudyOf(form: Form): Result<Study> {
    if form.title == "" then Err(MissingTitle) else StudyOf(form)
  }

  /** With the intended check an empty title is refused, and any other form is treated
      exactly as before. */
  lemma IntendedRefusesEmptyTitle(form: Form)
    ensures IntendedStudyOf(form).Ok? <==> form.title != "" && Acceptable(form)
    ensures form.title == "" ==> IntendedStudyOf(form) == Err(MissingTitle)
    ensures form.title != "" ==> IntendedStudyOf(form) == StudyOf(form)
  {
    StudyOfSpec(form);
  }

  //// Loading

  /** The text a number box shows after `box.value = v`: the decimal digits of a number,
      and nothing for the `null` that `JSON.stringify` wrote for NaN. */
  function BoxText(v: Parsed): string {
    if v.Num? then IntToString(v.n) else ""
  }

  /** Checking one radio of the group clears the others. */
  function Check(radios: seq<Radio>, value: string): (r: seq<Radio>)
    ensures |r| == |radios|
  {
    seq(|radios|, i requires 0 <= i < |radios| => radios[i].(checked := radios[i].value == value))
  }

  /** `loadStudy` on the parsed file: the boxes are filled from the study, the radio of a
      known display is checked (an unknown one leaves the radios as they were), and the
      rows are replaced by one row per entry. */
  function Loaded(form: Form, study: Study): Form {
    var displays :=
      if study.display in {Some(DisplayTrace), Some(DisplayPreview), Some(DisplayText)}
      then Check(form.displays, study.display.value)
      else form.displays;
    Form(study.title, IntToString(study.count), study.random, displays, study.entries,
         BoxText(study.canvasWidth), BoxText(study.canvasHeight))
  }

  /** `loadStudy`: the entries copied out of the file, then one row made for each. */
  method LoadStudy(form: Form, study: Study) returns (loaded: Form)
    ensures loaded == Loaded(form, study)
  {
    var entries := [];
    var i := 0;
    while i < |study.entries|
      invariant 0 <= i <= |study.entries|
      invariant entries == study.entries[..i]
    {
      entries := entries + [study.entries[i]];
      i := i + 1;
    }
    var displays := form.displays;
    if study.display == Some(DisplayTrace) || study.display == Some(DisplayPreview)
      || study.display == Some(DisplayText) {
      displays := Check(form.displays, study.display.value);
    }
    var rows := [];
    i := 0;
    while i < |entries|
      invariant 0 <= i <= |entries| == |study.entries|
      invariant rows == entries[..i]
    {
      rows := rows + [entries[i]];
      i := i + 1;
    }
    assert entries == study.entries;
    loaded := Form(study.title, IntToString(study.count), study.random, displays, rows,
                   BoxText(study.canvasWidth), BoxText(study.canvasHeight));
  }

  /** A study `saveStudy` could have written: a positive count, one of the three displays,
      complete entries (with no file name for the text display) and positive canvas sizes
      for the text display. */
  predicate WellFormed(study: Study) {
    && study.count > 0
    && study.display in {Some(DisplayTrace), Some(DisplayPreview), Some(DisplayText)}
    && study.entries != []
    && (forall i :: 0 <= i < |study.entries| ==>
          (study.entries[i].shapeLabel != ""
           && if NeedsFile(study.display) then study.entries[i].filename != ""
              else study.entries[i].filename == ""))
    && (study.display == Some(DisplayText) ==> Positive(study.canvasWidth) && Positive(study.canvasHeight))
  }

  /** A box reads back what was put in it. */
  lemma BoxRoundTrip(v: Parsed)
    ensures ParseInt(BoxText(v)) == v
  {
    if v.Num? {
      ParseIntOfWhole(v.n);
    } else {
      ParseIntNaN("");
    }
  }

  /** After loading, the first checked radio is the study's display. */
  lemma LoadedDisplay(form: Form, study: Study)
    requires study.display in {Some(DisplayTrace), Some(DisplayPreview), Some(DisplayText)}
    requires exists i :: 0 <= i < |form.displays| && form.displays[i].value == study.display.value
    ensures FirstChecked(Loaded(form, study).displays) == study.display
  {
    var radios := Loaded(form, study).displays;
    var i :| 0 <= i < |form.displays| && form.displays[i].value == study.display.value;
    FirstCheckedSpec(radios);
    assert radios[i].checked;
  }

  /** The entries of a well-formed study pass the entry loop unchanged. */
  lemma LoadedEntries(study: Study)
    requires WellFormed(study)
    ensures EntriesOf(study.entries, study.display) == Ok(study.entries)
  {
    EntriesOfSpec(study.entries, study.display);
    var es := EntriesOf(study.entries, study.display).value;
    forall i | 0 <= i < |es|
      ensures es[i] == study.entries[i]
    {
      assert es[i].shapeLabel == study.entries[i].shapeLabel;
      assert es[i].filename == study.entries[i].filename;
    }
    assert es == study.entries;
  }

  /** Loading a well-formed study with a non-empty title into a form that has a radio for
      its display, then saving, writes the same study back. */
  lemma LoadThenSave(form: Form, study: Study)
    requires WellFormed(study) && study.title != ""
    requires exists i :: 0 <= i < |form.displays| && form.displays[i].value == study.display.value
    ensures IntendedStudyOf(Loaded(form, study)) == Ok(study)
  {
    LoadedDisplay(form, study);
    LoadedBoxes(form, study);
    SavedBack(Loaded(form, study), study);
  }

  /** A form whose boxes hold a well-formed study, title included, saves as that study. */
  lemma SavedBack(form: Form, study: Study)
    requires WellFormed(study)
    requires form.title == study.title && form.random == study.random && study.title != ""
    requires FirstChecked(form.displays) == study.display && form.rows == study.entries
    requires form.count != "" && ParseInt(form.count) == Num(study.count)
    requires ParseInt(form.canvasWidth) == study.canvasWidth && ParseInt(form.canvasHeight) == study.canvasHeight
    ensures IntendedStudyOf(form) == Ok(study)
  {
    SavedFrom(form, Num(study.count), study.canvasWidth, study.canvasHeight);
    StudyFromWellFormed(form, study);
  }

  /** A form with a title and a filled count box is saved from what its boxes read. */
  lemma SavedFrom(form: Form, count: Parsed, w: Parsed, h: Parsed)
    requires form.title != "" && form.count != ""
    requires ParseInt(form.count) == count
    requires ParseInt(form.canvasWidth) == w && ParseInt(form.canvasHeight) == h
    ensures IntendedStudyOf(form) == StudyFrom(form, count, w, h)
  {
  }

  /** The loaded count box is filled and reads back the count, and the canvas boxes read
      back the canvas sizes. */
  lemma LoadedBoxes(form: Form, study: Study)
    requires study.count > 0
    ensures var loaded := Loaded(form, study);
      && loaded.count != "" && ParseInt(loaded.count) == Num(study.count)
      && ParseInt(loaded.canvasWidth) == study.canvasWidth
      && ParseInt(loaded.canvasHeight) == study.canvasHeight
  {
    ParseIntOfWhole(study.count);
    BoxRoundTrip(study.canvasWidth);
    BoxRoundTrip(study.canvasHeight);
  }

  /** A form holding a well-formed study's title, flag, display and entries, with the
      study's count and canvas boxes read, gives back the study. */
  lemma StudyFromWellFormed(form: Form, study: Study)
    requires WellFormed(study)
    requires form.title == study.title && form.random == study.random
    requires FirstChecked(form.displays) == study.display && form.rows == study.entries
    ensures StudyFrom(form, Num(study.count), study.canvasWidth, study.canvasHeight) == Ok(study)
  {
    LoadedEntries(study);
  }
}
