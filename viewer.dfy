/** The `BasicSketchDataViewer` app's file filter `validFileType`; the normalizer app
    carries the same function, character for character. A file is taken as JSON when its
    name ends in the four letters `json` in any case: no dot is looked for. */
module Viewer {
  import opened JsText

  /** `validFileType(file)` on `file.name`: names of five characters or fewer are
      refused, otherwise `slice(length - 4, length)`, lower-cased, must be `"json"`. */
  function ValidFileType(fileName: string): bool {
    if |fileName| <= 5 then false
    else Lower(fileName[|fileName| - 4..]) == "json"
  }

  /** The character `c` read without case is `want`, a lower-case letter. */
  predicate SameLetter(c: char, want: char) {
    c == want || c as int == want as int - 32
  }

  /** The filter, spelled out: at least six characters, the fourth-last a `j` or `J`, then
      an `s` or `S`, an `o` or `O` and an `n` or `N`. */
  lemma ValidFileTypeSpelled(fileName: string)
    ensures ValidFileType(fileName) <==>
      var n := |fileName|;
      && n >= 6
      && SameLetter(fileName[n - 4], 'j') && SameLetter(fileName[n - 3], 's')
      && SameLetter(fileName[n - 2], 'o') && SameLetter(fileName[n - 1], 'n')
  {
    var n := |fileName|;
    if n >= 6 {
      var ext := fileName[n - 4..];
      var lower := Lower(ext);
      assert lower == [lower[0], lower[1], lower[2], lower[3]];
      assert ext[0] == fileName[n - 4] && ext[3] == fileName[n - 1];
    }
  }

  /** What comes before the last four characters is never looked at: `abjson` passes,
      and so does any name of at least six characters ending the same way. */
  lemma OnlyTheEndCounts(prefix: string, other: string, ending: string)
    requires |ending| == 4 && |prefix| >= 2 && |other| >= 2
    ensures ValidFileType(prefix + ending) == ValidFileType(other + ending)
  {
    assert (prefix + ending)[|prefix + ending| - 4..] == ending;
    assert (other + ending)[|other + ending| - 4..] == ending;
  }

  /** The cases the filter is known for: `abjson` and `a.JSON` pass, while `.json` (five
      characters) and `data.jsonl` are refused. */
  lemma FilterExamples()
    ensures ValidFileType("abjson")
    ensures ValidFileType("a.JSON")
    ensures !ValidFileType(".json")
    ensures !ValidFileType("data.jsonl")
  {
    ValidFileTypeSpelled("abjson");
    ValidFileTypeSpelled("a.JSON");
    ValidFileTypeSpelled("data.jsonl");
  }
}
