/** Spreadsheet ids in page URLs: the scanner behind
    `/\/spreadsheets\/d\/([a-zA-Z0-9-_]+)/`, written out by hand, and the
    gate `getCurrentSpreadsheetId` applies to the active tab's URL. Both
    copies of these helpers in the extension behave the same way. */
module SpreadsheetUrl {
  import opened Values
  import opened JsString

  const Marker := "/spreadsheets/d/"
  /** What the tab URL must contain before an id is looked for. */
  const SheetsGate := "docs.google.com/spreadsheets"

  /** `[a-zA-Z0-9-_]`. */
  predicate IsIdChar(c: char) {
    ('a' <= c <= 'z') || ('A' <= c <= 'Z') || ('0' <= c <= '9') || c == '-' || c == '_'
  }

  /** The pattern matches at `p`: the marker, then at least one id
      character. */
  predicate MatchesAt(url: string, p: nat) {
    OccursAt(url, Marker, p) && p + |Marker| < |url| && IsIdChar(url[p + |Marker|])
  }

  /** The leftmost match at or after `from`. */
  function FirstMatch(url: string, from: nat): (r: Option<nat>)
    ensures r.Some? ==> from <= r.value && MatchesAt(url, r.value)
    ensures r.Some? ==> forall q: nat | from <= q < r.value :: !MatchesAt(url, q)
    ensures r.None? ==> forall q: nat | from <= q :: !MatchesAt(url, q)
    decreases |url| - from
  {
    if from + |Marker| >= |url| then None
    else if MatchesAt(url, from) then Some(from)
    else FirstMatch(url, from + 1)
  }

  /** Where the run of id characters starting at `from` ends. */
  function IdRunEnd(url: string, from: nat): (e: nat)
    requires from <= |url|
    ensures from <= e <= |url|
    ensures forall i | from <= i < e :: IsIdChar(url[i])
    ensures e == |url| || !IsIdChar(url[e])
    decreases |url| - from
  {
    if from == |url| || !IsIdChar(url[from]) then from else IdRunEnd(url, from + 1)
  }

  /** `extractSpreadsheetId`: the greedy run of id characters after the
      leftmost marker that is followed by one, or `None` when the marker is
      never followed by an id character. */
  function ExtractSpreadsheetId(url: string): (r: Option<string>)
    ensures r.None? <==> forall q: nat :: !MatchesAt(url, q)
    ensures r.Some? ==>
      var p := FirstMatch(url, 0).value;
      && r.value == url[p + |Marker|..IdRunEnd(url, p + |Marker|)]
      && r.value != []
      && (forall i | 0 <= i < |r.value| :: IsIdChar(r.value[i]))
  {
    match FirstMatch(url, 0)
    case None => None
    case Some(p) => Some(url[p + |Marker|..IdRunEnd(url, p + |Marker|)])
  }

  /** The page URL up to the marker, as the spreadsheet editor shows it. */
  const SheetsHome := "https://docs.google.com"

  function SheetsUrl(id: string, rest: string): string {
    SheetsHome + Marker + id + rest
  }

  /** No slash of `head` is followed by an `s`, and it does not end in a
      slash, so no match can start inside it. */
  predicate NoMarkerStart(head: string) {
    forall q | 0 <= q < |head| :: head[q] == '/' ==> q + 1 < |head| && head[q + 1] != 's'
  }

  lemma SheetsHomeHasNoMarkerStart()
    ensures NoMarkerStart(SheetsHome)
  {
  }

  /** After a head in which no match can start, the id following the
      marker is read back whole. */
  lemma {:induction false} ExtractAfterHead(head: string, id: string, rest: string)
    requires NoMarkerStart(head)
    requires id != [] && forall i | 0 <= i < |id| :: IsIdChar(id[i])
    requires rest == [] || !IsIdChar(rest[0])
    ensures ExtractSpreadsheetId(head + Marker + id + rest) == Some(id)
  {
    var url := head + Marker + id + rest;
    var p := |head|;
    assert MatchesAt(url, p) by {
      assert url[p..p + |Marker|] == Marker;
      assert url[p + |Marker|] == id[0];
    }
    forall q: nat | q < p ensures !MatchesAt(url, q) {
      assert url[q] == head[q];
      if q + 1 < |head| {
        assert url[q + 1] == head[q + 1];
      }
      NoMatchWithoutSlashS(url, q);
    }
    var from := p + |Marker|;
    var e := from + |id|;
    forall i | from <= i < e ensures IsIdChar(url[i]) {
      assert url[i] == id[i - from];
    }
    assert e == |url| || !IsIdChar(url[e]) by {
      if rest != [] {
        assert url[e] == rest[0];
      }
    }
    ExtractAt(url, p, e);
    assert url[from..e] == id;
  }

  /** The first match, followed by a maximal run of id characters, gives
      that run as the id. */
  lemma ExtractAt(url: string, p: nat, e: nat)
    requires MatchesAt(url, p) && forall q: nat | q < p :: !MatchesAt(url, q)
    requires p + |Marker| <= e <= |url|
    requires forall i | p + |Marker| <= i < e :: IsIdChar(url[i])
    requires e == |url| || !IsIdChar(url[e])
    ensures ExtractSpreadsheetId(url) == Some(url[p + |Marker|..e])
  {
    FirstMatchIs(url, 0, p);
    IdRunEndIs(url, p + |Marker|, e);
  }

  /** No match starts where the text does not read `/s`. */
  lemma NoMatchWithoutSlashS(url: string, q: nat)
    requires q + 1 < |url| && (url[q] != '/' || url[q + 1] != 's')
    ensures !MatchesAt(url, q)
  {
    if q + |Marker| <= |url| {
      assert url[q..q + |Marker|][0] == url[q];
      assert url[q..q + |Marker|][1] == url[q + 1];
    }
  }

  /** The first match from `from` is the match at `p` with none before it. */
  lemma {:induction false} FirstMatchIs(url: string, from: nat, p: nat)
    requires from <= p && MatchesAt(url, p)
    requires forall q: nat | from <= q < p :: !MatchesAt(url, q)
    ensures FirstMatch(url, from) == Some(p)
    decreases p - from
  {
    if from < p {
      FirstMatchIs(url, from + 1, p);
    }
  }

  /** The id of an editor URL is read back whole. */
  lemma ExtractFromSheetsUrl(id: string, rest: string)
    requires id != [] && forall i | 0 <= i < |id| :: IsIdChar(id[i])
    requires rest == [] || !IsIdChar(rest[0])
    ensures ExtractSpreadsheetId(SheetsUrl(id, rest)) == Some(id)
  {
    SheetsHomeHasNoMarkerStart();
    ExtractAfterHead(SheetsHome, id, rest);
  }

  /** A run of id characters that ends at `e` ends at `e`. */
  lemma {:induction false} IdRunEndIs(url: string, from: nat, e: nat)
    requires from <= e <= |url|
    requires forall i | from <= i < e :: IsIdChar(url[i])
    requires e == |url| || !IsIdChar(url[e])
    ensures IdRunEnd(url, from) == e
    decreases e - from
  {
    if from < e {
      IdRunEndIs(url, from + 1, e);
    }
  }

  /** The active tab as far as the gate looks at it. */
  datatype Tab = Tab(url: Option<string>)

  /** `getCurrentSpreadsheetId`: nothing when the tabs API is missing, there
      is no active tab, the tab has no (or an empty) URL, or the URL is not a
      spreadsheet page; otherwise the extracted id. */
  function CurrentSpreadsheetId(tabsApi: bool, tabs: seq<Tab>): (r: Option<string>)
    ensures r.Some? ==>
      && tabsApi && |tabs| > 0 && tabs[0].url.Some?
      && Includes(tabs[0].url.value, SheetsGate)
      && r == ExtractSpreadsheetId(tabs[0].url.value)
    ensures (tabsApi && |tabs| > 0 && tabs[0].url.Some? && tabs[0].url.value != []
      && Includes(tabs[0].url.value, SheetsGate)) ==> r == ExtractSpreadsheetId(tabs[0].url.value)
  {
    if !tabsApi || |tabs| == 0 then None
    else match tabs[0].url
      case None => None
      case Some(url) =>
        if url == [] || !Includes(url, SheetsGate) then None
        else ExtractSpreadsheetId(url)
  }

  /** An editor URL in the active tab passes the gate and yields its id. */
  lemma CurrentIdOfSheetsUrl(id: string, rest: string)
    requires id != [] && forall i | 0 <= i < |id| :: IsIdChar(id[i])
    requires rest == [] || !IsIdChar(rest[0])
    ensures CurrentSpreadsheetId(true, [Tab(Some(SheetsUrl(id, rest)))]) == Some(id)
  {
    var url := SheetsUrl(id, rest);
    assert OccursAt(SheetsHome + Marker, SheetsGate, 8);
    assert url == SheetsHome + Marker + (id + rest);
    OccursAtExtended(SheetsHome + Marker, SheetsGate, 8, id + rest);
    ExtractFromSheetsUrl(id, rest);
  }
}
