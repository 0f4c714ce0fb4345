/** The dialog adding a sheet name to the client's list (frontend/src/sheetModal.tsx): the
    typed name is checked as it changes and added when the dialog closes. */
module SheetModal {
  import opened Wrappers

  predicate IsLetter(c: char) { 'a' <= c <= 'z' || 'A' <= c <= 'Z' }

  /** `[a-zA-Z_$]` */
  predicate IsFirstNameChar(c: char) { IsLetter(c) || c == '_' || c == '$' }

  /** `[a-zA-Z0-9_$\-.]` */
  predicate IsNameChar(c: char) { IsFirstNameChar(c) || '0' <= c <= '9' || c == '-' || c == '.' }

  /** Every character of `s` is a name character. */
  function AllNameChars(s: string): (r: bool)
    ensures r <==> forall i :: 0 <= i < |s| ==> IsNameChar(s[i])
    decreases |s|
  {
    if s == [] then true
    else
      assert forall i :: 1 <= i < |s| ==> s[i] == s[1..][i - 1];
      IsNameChar(s[0]) && AllNameChars(s[1..])
  }

  /** `validJSON`: the whole string matches `^[a-zA-Z_$][a-zA-Z0-9_$\-.]*$`. */
  function ValidJson(s: string): (r: bool)
    ensures r <==> |s| > 0 && IsFirstNameChar(s[0]) && forall i :: 1 <= i < |s| ==> IsNameChar(s[i])
  {
    |s| > 0 && IsFirstNameChar(s[0]) && AllNameChars(s[1..])
  }

  /** The empty string, a name starting with a digit, and a name with a space are refused;
      letters, digits, `_`, `$`, `-` and `.` after a letter are accepted. */
  lemma ValidJsonExamples()
    ensures !ValidJson("")
    ensures !ValidJson("1st")
    ensures !ValidJson("my sheet")
    ensures ValidJson("$my_sheet-2.v")
  {
    assert !IsNameChar("my sheet"[2]);
    assert !IsFirstNameChar("1st"[0]);
  }

  /** `nameExists`: the first entry equal to `name`, if any. */
  function NameExists(sheets: seq<string>, name: string): (r: Option<string>)
    ensures r.Some? <==> name in sheets
    ensures r.Some? ==> r.value == name
    decreases |sheets|
  {
    if sheets == [] then None
    else if sheets[0] == name then Some(sheets[0])
    else NameExists(sheets[1..], name)
  }

  /** JavaScript truthiness of what `nameExists` returns: a found empty string is falsy. */
  predicate Truthy(found: Option<string>) { found.Some? && found.value != "" }

  /** The validity `handleNameChange` computes for a typed value. */
  function NameValidity(sheets: seq<string>, value: string): bool
  {
    (ValidJson(value) && !Truthy(NameExists(sheets, value))) || |value| == 0
  }

  /** A typed name is valid exactly when it is empty or a well-formed name not yet in the
      list. */
  lemma NameValidityMeans(sheets: seq<string>, value: string)
    ensures NameValidity(sheets, value) <==> value == "" || (ValidJson(value) && value !in sheets)
  {
  }

  /** The state of the dialog and the list it adds to; `stored` is the list last written to
      the browser's storage. */
  class Dialog {
    var name: string
    var validName: bool
    var sheets: seq<string>
    var stored: Option<seq<string>>
    var open: bool

    /** While the dialog is open, a name marked valid is empty or new and well formed. */
    predicate Valid()
      reads this
    {
      open ==> validName ==> name == "" || (ValidJson(name) && name !in sheets)
    }

    /** The first render: an empty name, marked as `validJSON("")` marks it. */
    constructor (sheets: seq<string>, stored: Option<seq<string>>)
      ensures Valid()
      ensures name == "" && !validName && open
      ensures this.sheets == sheets && this.stored == stored
    {
      name := "";
      validName := ValidJson("");
      this.sheets := sheets;
      this.stored := stored;
      open := true;
    }

    /** `handleNameChange`. */
    method HandleNameChange(value: string)
      requires Valid()
      modifies this
      ensures Valid()
      ensures name == value
      ensures validName <==> value == "" || (ValidJson(value) && value !in sheets)
      ensures sheets == old(sheets) && stored == old(stored) && open == old(open)
    {
      name := value;
      validName := NameValidity(sheets, value);
      NameValidityMeans(sheets, value);
    }

    /** `saveAndExit`: the dialog closes, and a valid non-empty name is appended to the list,
        which is also stored. */
    method SaveAndExit()
      modifies this
      ensures !open
      ensures name == old(name) && validName == old(validName)
      ensures old(validName) && |old(name)| > 0 ==>
        sheets == old(sheets) + [old(name)] && stored == Some(sheets)
      ensures !(old(validName) && |old(name)| > 0) ==> sheets == old(sheets) && stored == old(stored)
    {
      open := false;
      if validName && |name| > 0 {
        var newSheets := sheets + [name];
        sheets := newSheets;
        stored := Some(newSheets);
      }
    }
  }

  /** Closing the dialog adds only well-formed names the list did not hold, so a list
      without repeats stays without repeats. */
  lemma SaveKeepsNamesDistinct(sheets: seq<string>, name: string)
    requires forall i, j :: 0 <= i < j < |sheets| ==> sheets[i] != sheets[j]
    requires name == "" || (ValidJson(name) && name !in sheets)
    ensures |name| > 0 ==>
      var added := sheets + [name];
      ValidJson(name) && forall i, j :: 0 <= i < j < |added| ==> added[i] != added[j]
  {
    if |name| > 0 {
      var added := sheets + [name];
      forall i, j | 0 <= i < j < |added|
        ensures added[i] != added[j]
      {
        if j == |sheets| {
          assert added[i] in sheets;
        }
      }
    }
  }
}
