/** The Google Sheets rewrite at the start of `connect_url`
    (backend/main.py): a sheet link becomes the link of its CSV export. */
module SheetsUrl {
  import opened JsonValue
  import opened Text
  import opened Http

  const SheetsHost := "docs.google.com/spreadsheets"
  const ExportPrefix := "https://docs.google.com/spreadsheets/d/"
  const ExportSuffix := "/export?format=csv"
  const InvalidSheet := "Invalid Google Sheet URL"

  /** The character class `[a-zA-Z0-9-_]` of the sheet id. */
  predicate IsIdChar(c: char)
  {
    'a' <= c <= 'z' || 'A' <= c <= 'Z' || '0' <= c <= '9' || c == '-' || c == '_'
  }

  /** The longest run of characters of the class starting at `i`: what a
      greedy `+` takes. */
  function RunFrom(s: string, i: nat, inClass: char -> bool): (r: string)
    requires i <= |s|
    ensures i + |r| <= |s| && r == s[i..i + |r|]
    ensures forall k :: 0 <= k < |r| ==> inClass(r[k])
    ensures i + |r| == |s| || !inClass(s[i + |r|])
    decreases |s| - i
  {
    if i < |s| && inClass(s[i]) then [s[i]] + RunFrom(s, i + 1, inClass) else []
  }

  /** `/d/([a-zA-Z0-9-_]+)` matches at `i`. */
  predicate SheetIdAt(s: string, i: nat)
  {
    i + 3 < |s| && s[i..i + 3] == "/d/" && IsIdChar(s[i + 3])
  }

  /** `[#&]gid=([0-9]+)` matches at `i`. */
  predicate GidAt(s: string, i: nat)
  {
    i + 5 < |s| && (s[i] == '#' || s[i] == '&') && s[i + 1..i + 5] == "gid=" && IsDigit(s[i + 5])
  }

  /** `re.search` for the sheet id from position `from`: the group of the
      leftmost match. */
  function FindSheetId(s: string, from: nat): (r: Option<string>)
    ensures r.Some? ==> |r.value| > 0 && forall k :: 0 <= k < |r.value| ==> IsIdChar(r.value[k])
    decreases |s| - from
  {
    if from + 3 >= |s| then None
    else if SheetIdAt(s, from) then Some(RunFrom(s, from + 3, IsIdChar))
    else FindSheetId(s, from + 1)
  }

  /** `re.search` for the gid: the digits of the leftmost match. */
  function FindGid(s: string, from: nat): (r: Option<string>)
    ensures r.Some? ==> |r.value| > 0 && AllDigits(r.value)
    decreases |s| - from
  {
    if from + 5 >= |s| then None
    else if GidAt(s, from) then Some(RunFrom(s, from + 5, IsDigit))
    else FindGid(s, from + 1)
  }

  /** No match at or after `from` gives `None`. */
  lemma {:induction false} FindSheetIdNone(s: string, from: nat)
    ensures FindSheetId(s, from).None? <==> forall i :: from <= i ==> !SheetIdAt(s, i)
    decreases |s| - from
  {
    if from + 3 < |s| && !SheetIdAt(s, from) {
      FindSheetIdNone(s, from + 1);
    }
  }

  /** A found id is the greedy run after the leftmost `/d/` followed by an
      id character. */
  lemma {:induction false} FindSheetIdLeftmost(s: string, from: nat) returns (i: nat)
    requires FindSheetId(s, from).Some?
    ensures from <= i && SheetIdAt(s, i) && FindSheetId(s, from).value == RunFrom(s, i + 3, IsIdChar)
    ensures forall j :: from <= j < i ==> !SheetIdAt(s, j)
    decreases |s| - from
  {
    if SheetIdAt(s, from) {
      i := from;
    } else {
      i := FindSheetIdLeftmost(s, from + 1);
    }
  }

  lemma {:induction false} FindGidNone(s: string, from: nat)
    ensures FindGid(s, from).None? <==> forall i :: from <= i ==> !GidAt(s, i)
    decreases |s| - from
  {
    if from + 5 < |s| && !GidAt(s, from) {
      FindGidNone(s, from + 1);
    }
  }

  lemma {:induction false} FindGidLeftmost(s: string, from: nat) returns (i: nat)
    requires FindGid(s, from).Some?
    ensures from <= i && GidAt(s, i) && FindGid(s, from).value == RunFrom(s, i + 5, IsDigit)
    ensures forall j :: from <= j < i ==> !GidAt(s, j)
    decreases |s| - from
  {
    if GidAt(s, from) {
      i := from;
    } else {
      i := FindGidLeftmost(s, from + 1);
    }
  }

  /** The rewrite: the URL is stripped; a Sheets URL becomes its CSV export
      link (keeping the tab's gid when one is given) or is refused with 400;
      any other URL is kept. */
  function RewriteSheetsUrl(raw: string): Outcome<string>
  {
    SheetsExport(Trim(raw, IsPySpace))
  }

  /** The rewrite of an already stripped URL. */
  function SheetsExport(url: string): Outcome<string>
  {
    if !Contains(url, SheetsHost) then Ok(url)
    else match FindSheetId(url, 0)
      case None => Error(400, InvalidSheet)
      case Some(id) => Ok(ExportLink(id, FindGid(url, 0)))
  }

  function ExportLink(id: string, gid: Option<string>): string
  {
    ExportPrefix + id + ExportSuffix + (if gid.Some? then "&gid=" + gid.value else "")
  }

  /** What `connect_url` goes on with: the catch-all handler turns the 400
      into a 500 whose detail quotes it. */
  function ConnectUrlTarget(raw: string): (r: Outcome<string>)
    ensures r.Error? ==> r.status == 500
  {
    match RewriteSheetsUrl(raw)
    case Error(status, detail) => Error(500, "Failed to connect: " + ExceptionText(status, detail))
    case Ok(url) => Ok(url)
  }

  /** A URL that does not name the Sheets host is only stripped, and
      stripping it again changes nothing. */
  lemma OtherUrlsPassThrough(raw: string)
    requires !Contains(Trim(raw, IsPySpace), SheetsHost)
    ensures ConnectUrlTarget(raw) == Ok(Trim(raw, IsPySpace))
    ensures Trim(ConnectUrlTarget(raw).value, IsPySpace) == ConnectUrlTarget(raw).value
  {
    TrimIdempotent(raw, IsPySpace);
  }

  /** A Sheets URL with an id becomes the export link of the leftmost id;
      the `&gid=` part is there exactly when the URL has a `#gid=` or
      `&gid=` followed by digits. */
  lemma SheetsUrlRewritten(url: string)
    requires Contains(url, SheetsHost)
    requires exists i: nat :: SheetIdAt(url, i)
    ensures exists i: nat ::
      && SheetIdAt(url, i) && (forall j: nat :: j < i ==> !SheetIdAt(url, j))
      && SheetsExport(url) == Ok(ExportLink(RunFrom(url, i + 3, IsIdChar), FindGid(url, 0)))
    ensures FindGid(url, 0).None? <==> forall j: nat :: !GidAt(url, j)
  {
    FindSheetIdNone(url, 0);
    var i := FindSheetIdLeftmost(url, 0);
    FindGidNone(url, 0);
  }

  /** When a gid is present, the digits of the leftmost one follow `&gid=`. */
  lemma GidKept(url: string)
    requires exists j: nat :: GidAt(url, j)
    ensures exists j: nat ::
      && GidAt(url, j) && (forall k: nat :: k < j ==> !GidAt(url, k))
      && FindGid(url, 0) == Some(RunFrom(url, j + 5, IsDigit))
  {
    FindGidNone(url, 0);
    var j := FindGidLeftmost(url, 0);
  }

  /** A Sheets URL without an id is refused with 400. */
  lemma InvalidSheetRefused(url: string)
    requires Contains(url, SheetsHost)
    requires forall i: nat :: !SheetIdAt(url, i)
    ensures SheetsExport(url) == Error(400, InvalidSheet)
  {
    FindSheetIdNone(url, 0);
  }

  /** The refusal reaches the client as a 500 whose detail quotes the 400. */
  lemma RefusalIsServerError(raw: string)
    requires RewriteSheetsUrl(raw).Error?
    ensures ConnectUrlTarget(raw) == Error(500, "Failed to connect: " + "400: " + InvalidSheet)
  {
    BadRequestText(InvalidSheet);
  }

  /** The id survives the rewrite: searching the whole export link from its
      first character finds the same id. */
  lemma IdSurvivesRewrite(id: string, gid: Option<string>)
    requires |id| > 0 && forall k :: 0 <= k < |id| ==> IsIdChar(id[k])
    ensures FindSheetId(ExportLink(id, gid), 0) == Some(id)
  {
    var link := ExportLink(id, gid);
    var start := |ExportPrefix|;
    var rest := ExportSuffix + (if gid.Some? then "&gid=" + gid.value else "");
    assert link == ExportPrefix + id + rest;
    assert link[start - 3..start] == "/d/";
    assert link[start] == id[0];
    assert link[start + |id|] == '/';
    assert link[..start] == ExportPrefix;
    RunIsId(link, start, id);
    NoMatchInPrefix(link);
    FindSheetIdSkip(link, 0, start - 3);
  }

  /** A string that starts with the export prefix has no `/d/` before the
      prefix's own. */
  lemma NoMatchInPrefix(s: string)
    requires |ExportPrefix| <= |s| && s[..|ExportPrefix|] == ExportPrefix
    ensures forall j :: 0 <= j < |ExportPrefix| - 3 ==> !SheetIdAt(s, j)
  {
    forall j | 0 <= j < |ExportPrefix| - 3 ensures !SheetIdAt(s, j) {
      PrefixHasNoEarlierMatch(j);
      assert s[j..j + 3] == ExportPrefix[j..j + 3];
    }
  }

  /** The only `/d/` of the export prefix is the one before the id. */
  lemma PrefixHasNoEarlierMatch(j: nat)
    requires j < |ExportPrefix| - 3
    ensures ExportPrefix[j..j + 3] != "/d/"
  {
    var w := ExportPrefix[j..j + 3];
    assert w[0] == ExportPrefix[j] && w[1] == ExportPrefix[j + 1] && w[2] == ExportPrefix[j + 2];
  }

  /** A search that finds no match in `[from, to)` goes on from `to`. */
  lemma {:induction false} FindSheetIdSkip(s: string, from: nat, to: nat)
    requires from <= to && to + 3 < |s|
    requires forall j :: from <= j < to ==> !SheetIdAt(s, j)
    ensures FindSheetId(s, from) == FindSheetId(s, to)
    decreases |s| - from
  {
    if from < to {
      FindSheetIdSkip(s, from + 1, to);
    }
  }

  lemma {:induction false} RunIsId(s: string, i: nat, id: string)
    requires i + |id| < |s| && s[i..i + |id|] == id && !IsIdChar(s[i + |id|])
    requires forall k :: 0 <= k < |id| ==> IsIdChar(id[k])
    ensures RunFrom(s, i, IsIdChar) == id
    decreases |id|
  {
    if id != [] {
      assert s[i] == id[0];
      assert s[i + 1..i + 1 + |id[1..]|] == id[1..];
      RunIsId(s, i + 1, id[1..]);
    }
  }
}
