/** The content script's `SheetDetector`: reads the spreadsheet id from the
    page URL, the sheet name from the document title (the lazy pattern
    `/^(.+?)\s*-\s*Google Sheets$/`, written out by hand), recognises
    spreadsheet pages and reports what it found to the background. The
    page's location and title are parameters. */
module SheetDetector {
  import opened Values
  import opened JsString
  import opened SpreadsheetUrl

  /** The parts of `window.location` the detector reads. */
  datatype Location = Location(href: string, hostname: string, pathname: string)

  datatype SheetInfo = SheetInfo(spreadsheetId: Option<string>, sheetName: string, url: string)

  /** The message sent to the background script. */
  datatype SheetMessage = SheetMessage(kind: string, data: SheetInfo)

  const Untitled := "Untitled Spreadsheet"
  const Suffix := "Google Sheets"
  const SheetInfoDetected := "SHEET_INFO_DETECTED"

  predicate NoLineTerminator(s: string) {
    forall i | 0 <= i < |s| :: !IsLineTerminator(s[i])
  }

  /** `\s*-\s*`: a dash with only whitespace around it. */
  predicate IsSeparator(m: string) {
    exists d: nat | d < |m| :: m[d] == '-' && AllWhitespace(m[..d]) && AllWhitespace(m[d + 1..])
  }

  /** `\s*-\s*Google Sheets$`. */
  predicate TailMatches(s: string) {
    EndsWith(s, Suffix) && IsSeparator(s[..|s| - |Suffix|])
  }

  /** The pattern matches the whole title with the captured name ending at
      `k`: a non-empty name without line terminators, then the tail. */
  predicate NameMatch(title: string, k: nat) {
    1 <= k <= |title| && NoLineTerminator(title[..k]) && TailMatches(title[k..])
  }

  /** The match the lazy `+?` finds: the shortest name. */
  predicate LazyMatch(title: string, k: nat) {
    NameMatch(title, k) && forall j: nat | j < k :: !NameMatch(title, j)
  }

  /** The end of the shortest name from `k` on, trying each length in turn
      and giving up at the first line terminator. */
  function NameEnd(title: string, k: nat): (r: Option<nat>)
    requires 1 <= k <= |title| + 1 && NoLineTerminator(title[..k - 1])
    ensures r.Some? ==> k <= r.value && NameMatch(title, r.value)
    ensures r.Some? ==> forall j: nat | k <= j < r.value :: !NameMatch(title, j)
    ensures r.None? ==> forall j: nat | k <= j :: !NameMatch(title, j)
    decreases |title| + 1 - k
  {
    if k > |title| then None
    else if IsLineTerminator(title[k - 1]) then
      assert forall j: nat | k <= j <= |title| :: title[..j][k - 1] == title[k - 1];
      None
    else
      assert title[..k] == title[..k - 1] + [title[k - 1]];
      if TailMatches(title[k..]) then Some(k) else NameEnd(title, k + 1)
  }

  /** `extractSheetName`: the shortest name the pattern captures, trimmed,
      or the untitled placeholder when the title does not match. */
  function ExtractSheetName(title: string): (r: string)
    ensures (forall k: nat :: !NameMatch(title, k)) ==> r == Untitled
    ensures forall k: nat | LazyMatch(title, k) :: r == Trim(title[..k])
  {
    match NameEnd(title, 1)
    case None => Untitled
    case Some(e) => LazyMatchAt(title, e); Trim(title[..e])
  }

  /** The shortest match is the only lazy one. */
  lemma LazyMatchAt(title: string, e: nat)
    requires NameMatch(title, e) && forall j: nat | 1 <= j < e :: !NameMatch(title, j)
    ensures forall k: nat | LazyMatch(title, k) :: k == e
  {
    forall k: nat | LazyMatch(title, k) ensures k == e {
      assert !(k < e) && !(e < k);
    }
  }

  /** The whitespace-dash-whitespace separator cannot itself be followed by
      a second dash, so whatever stands before " - " in a separator is
      whitespace. */
  lemma SeparatorBeforeDash(x: string)
    requires IsSeparator(x + " - ")
    ensures AllWhitespace(x)
  {
    var m := x + " - ";
    var d: nat :| d < |m| && m[d] == '-' && AllWhitespace(m[..d]) && AllWhitespace(m[d + 1..]);
    DashNotWhitespace(m[d + 1..], |x| - d);
    assert d == |x| + 1;
    forall i | 0 <= i < |x| ensures IsWhitespace(x[i]) {
      assert x[i] == m[..d][i];
    }
  }

  /** A string holding a dash is not all whitespace. */
  lemma DashNotWhitespace(s: string, i: int)
    ensures 0 <= i < |s| && s[i] == '-' ==> !AllWhitespace(s)
  {
  }

  /** A title "<name> - Google Sheets" yields the name, trimmed: a shorter
      name could only leave whitespace behind, which trimming drops anyway. */
  lemma SheetNameOfTitle(name: string)
    requires name != [] && NoLineTerminator(name)
    ensures ExtractSheetName(name + " - Google Sheets") == Trim(name)
  {
    var title := name + " - Google Sheets";
    TitleMatchesAtName(name);
    var k := NameEnd(title, 1).value;
    assert k <= |name|;
    assert title[..k] == name[..k];
    if k < |name| {
      ShorterNameLeavesWhitespace(name, k);
      assert name == name[..k] + name[k..];
      TrimDropsTrailingWhitespace(name[..k], name[k..]);
    }
  }

  /** The whole name is a match. */
  lemma TitleMatchesAtName(name: string)
    requires name != [] && NoLineTerminator(name)
    ensures NameMatch(name + " - Google Sheets", |name|)
  {
    var title := name + " - Google Sheets";
    assert title[..|name|] == name;
    assert title[|name|..] == " - " + Suffix;
    assert IsSeparator(" - ") by {
      assert " - "[1] == '-' && AllWhitespace(" - "[..1]) && AllWhitespace(" - "[2..]);
    }
    assert (" - " + Suffix)[..3] == " - ";
  }

  /** A match that ends the name early leaves only whitespace after it. */
  lemma ShorterNameLeavesWhitespace(name: string, k: nat)
    requires k < |name| && NameMatch(name + " - Google Sheets", k)
    ensures AllWhitespace(name[k..])
  {
    var title := name + " - Google Sheets";
    var x := name[k..];
    var s := title[k..];
    assert s == x + " - " + Suffix;
    assert s[..|s| - |Suffix|] == x + " - ";
    SeparatorBeforeDash(x);
  }

  /** The last " - " before the suffix separates it: earlier dashes stay in
      the name. */
  lemma DashesStayInName()
    ensures ExtractSheetName("A - B - Google Sheets") == "A - B"
  {
    var name := "A - B";
    assert name + " - Google Sheets" == "A - B - Google Sheets";
    assert name != [] && NoLineTerminator(name);
    assert Trim(name) == name by {
      TrimOfTrimmed(name);
    }
    SheetNameOfTitle(name);
  }

  /** A title that does not end in the suffix is untitled. */
  lemma UntitledWithoutSuffix(title: string)
    requires !EndsWith(title, Suffix)
    ensures ExtractSheetName(title) == Untitled
  {
    forall k: nat ensures !NameMatch(title, k) {
      if 1 <= k <= |title| && EndsWith(title[k..], Suffix) {
        SuffixOfTail(title, k);
      }
    }
  }

  /** A tail of a title ends in the suffix only when the title does. */
  lemma SuffixOfTail(title: string, k: nat)
    requires k <= |title| && EndsWith(title[k..], Suffix)
    ensures EndsWith(title, Suffix)
  {
    assert title[|title| - |Suffix|..] == title[k..][|title[k..]| - |Suffix|..];
  }

  /** `isGoogleSheetsPage`. */
  predicate IsGoogleSheetsPage(location: Location) {
    location.hostname == "docs.google.com" && Includes(location.pathname, "/spreadsheets/")
  }

  /** `getSheetInfo`: the id from the URL, the name from the title and the
      URL itself. */
  function GetSheetInfo(location: Location, title: string): (info: SheetInfo)
    ensures info.url == location.href
    ensures info.spreadsheetId == ExtractSpreadsheetId(location.href)
    ensures info.sheetName == ExtractSheetName(title)
  {
    SheetInfo(ExtractSpreadsheetId(location.href), ExtractSheetName(title), location.href)
  }

  /** `sendSheetInfoToBackground`: the message sent, when the runtime's
      messaging is available. */
  function SendSheetInfo(location: Location, title: string, runtimeAvailable: bool): (m: Option<SheetMessage>)
    ensures m.Some? <==> runtimeAvailable
    ensures m.Some? ==> m.value.kind == SheetInfoDetected && m.value.data == GetSheetInfo(location, title)
  {
    if runtimeAvailable then Some(SheetMessage(SheetInfoDetected, GetSheetInfo(location, title))) else None
  }

  /** An editor page is recognised, and its info carries the id from the
      URL and the name from a "<name> - Google Sheets" title. */
  lemma EditorPageInfo(id: string, rest: string, name: string)
    requires id != [] && forall i | 0 <= i < |id| :: IsIdChar(id[i])
    requires rest == [] || !IsIdChar(rest[0])
    requires name != [] && NoLineTerminator(name)
    ensures var location := Location(SheetsUrl(id, rest), "docs.google.com", Marker + id + rest);
      && IsGoogleSheetsPage(location)
      && GetSheetInfo(location, name + " - Google Sheets")
         == SheetInfo(Some(id), Trim(name), SheetsUrl(id, rest))
  {
    assert OccursAt(Marker, "/spreadsheets/", 0);
    OccursAtExtended(Marker, "/spreadsheets/", 0, id + rest);
    assert Marker + id + rest == Marker + (id + rest);
    ExtractFromSheetsUrl(id, rest);
    SheetNameOfTitle(name);
  }
}
