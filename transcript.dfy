/** The caption transcript script (skills/youtube-full/scripts/transcript.mjs):
    read the command line, pick a caption track, scan the timed-text XML for
    `<text …>…</text>` segments, clean each one and print the kept lines.
    The two downloads are parameters: the watch page as already reduced to
    its caption track list, and the caption file for a track URL. */
module Transcript {
  import opened Seqs
  import opened JsStrings

  // ---- Command line ----

  /** argValue: the argument after the first occurrence of the flag, or the
      default when the flag is absent or is the last argument. */
  function ArgValue(args: seq<string>, flag: string, def: Option<string>): (r: Option<string>)
    ensures flag !in args ==> r == def
    ensures forall i :: 0 <= i < |args| && args[i] == flag && flag !in args[..i] ==>
      r == if i + 1 < |args| then Some(args[i + 1]) else def
  {
    match FirstIndex(args, (a: string) => a == flag)
    case None => def
    case Some(i) =>
      if i + 1 < |args| then Some(args[i + 1]) else def
  }

  /** Appending a flag that was not there, with a value, gives that value back. */
  lemma ArgValueAppended(args: seq<string>, flag: string, v: string, def: Option<string>)
    requires flag !in args
    ensures ArgValue(args + [flag, v], flag, def) == Some(v)
  {
    var all := args + [flag, v];
    assert all[|args|] == flag && all[..|args|] == args;
  }

  /** `x || ''` and `if (x)` on a string that may be missing. */
  predicate Truthy(s: Option<string>) {
    s.Some? && s.value != ""
  }

  /** normalizeLang: a missing code becomes '', anything else is lower-cased. */
  function NormalizeLang(code: Option<string>): (r: string)
    ensures |r| == |code.GetOr("")|
    ensures forall i :: 0 <= i < |r| ==> r[i] == LowerChar(code.GetOr("")[i])
    ensures forall i :: 0 <= i < |r| ==> !('A' <= r[i] <= 'Z')
  {
    ToLower(code.GetOr(""))
  }

  /** Normalising twice is normalising once. */
  lemma NormalizeLangIdempotent(code: Option<string>)
    ensures NormalizeLang(Some(NormalizeLang(code))) == NormalizeLang(code)
  {
    var r := NormalizeLang(code);
    assert forall i :: 0 <= i < |r| ==> LowerChar(r[i]) == r[i];
  }

  // ---- Track selection ----

  /** A caption track of the player response; every property may be missing. */
  datatype Track = Track(languageCode: Option<string>, vssId: Option<string>, baseUrl: Option<string>)

  function CodeIs(want: string): Track -> bool {
    (t: Track) => NormalizeLang(t.languageCode) == want
  }

  function VssHas(sub: string): Track -> bool {
    (t: Track) => Contains(NormalizeLang(t.vssId), sub)
  }

  function IsEnglish(): Track -> bool {
    (t: Track) => StartsWith(NormalizeLang(t.languageCode), "en")
  }

  /** The preferred-language chain: the language code itself, then a vssId
      holding '.' and the code, then a vssId holding the code anywhere. */
  function Preferred(tracks: seq<Track>, want: string): (r: Option<Track>)
    ensures r.None? <==> !Any(tracks, CodeIs(want)) && !Any(tracks, VssHas("." + want)) && !Any(tracks, VssHas(want))
    ensures Any(tracks, CodeIs(want)) ==> r.Some? && IsFirst(tracks, CodeIs(want), r.value)
    ensures !Any(tracks, CodeIs(want)) && Any(tracks, VssHas("." + want)) ==>
      r.Some? && IsFirst(tracks, VssHas("." + want), r.value)
    ensures !Any(tracks, CodeIs(want)) && !Any(tracks, VssHas("." + want)) && Any(tracks, VssHas(want)) ==>
      r.Some? && IsFirst(tracks, VssHas(want), r.value)
    ensures r.Some? ==> r.value in tracks
  {
    match Find(tracks, CodeIs(want))
    case Some(t) => Some(t)
    case None =>
      match Find(tracks, VssHas("." + want))
      case Some(t) => Some(t)
      case None => Find(tracks, VssHas(want))
  }

  /** The track the script downloads: the preferred-language chain when a
      preference is given, and otherwise, or when it finds nothing, the first
      English track, else the first track. */
  function ChooseTrack(tracks: seq<Track>, langPref: Option<string>): (t: Track)
    requires |tracks| > 0
    ensures t in tracks
    ensures Truthy(langPref) && Preferred(tracks, NormalizeLang(langPref)).Some? ==>
      t == Preferred(tracks, NormalizeLang(langPref)).value
    ensures !(Truthy(langPref) && Preferred(tracks, NormalizeLang(langPref)).Some?) ==>
      && (Any(tracks, IsEnglish()) ==> IsFirst(tracks, IsEnglish(), t))
      && (!Any(tracks, IsEnglish()) ==> t == tracks[0])
  {
    var chosen := if Truthy(langPref) then Preferred(tracks, NormalizeLang(langPref)) else None;
    if chosen.Some? then chosen.value
    else match Find(tracks, IsEnglish())
      case Some(t) => t
      case None => tracks[0]
  }

  /** With a preference that is exactly some track's language code, up to
      case, the first such track is chosen. */
  lemma ChooseTrackByCode(tracks: seq<Track>, pref: string)
    requires |tracks| > 0 && pref != ""
    requires Any(tracks, CodeIs(NormalizeLang(Some(pref))))
    ensures IsFirst(tracks, CodeIs(NormalizeLang(Some(pref))), ChooseTrack(tracks, Some(pref)))
  {
  }

  /** Without a preference, an English track wins over the list order. */
  lemma ChooseTrackEnglishDefault(tracks: seq<Track>, i: nat)
    requires i < |tracks| && StartsWith(NormalizeLang(tracks[i].languageCode), "en")
    ensures StartsWith(NormalizeLang(ChooseTrack(tracks, None).languageCode), "en")
  {
    assert IsEnglish()(tracks[i]);
  }

  // ---- Caption text ----

  /** The entity replacements, one global pass each, in their fixed order. */
  function Unescape(s: string): string {
    var a := ReplaceAll(s, "&#39;", "'");
    var b := ReplaceAll(a, "&quot;", "\"");
    var c := ReplaceAll(b, "&amp;", "&");
    var d := ReplaceAll(c, "&lt;", "<");
    ReplaceAll(d, "&gt;", ">")
  }

  /** Because `&amp;` is replaced before `&lt;`, a doubly escaped `<` comes out
      as `<` itself. */
  lemma DoubleEscapedLessThan(s: string)
    requires s == "&amp;lt;"
    ensures Unescape(s) == "<"
  {
    ReplaceMissingChar(s, "&#39;", "'", '#');
    ReplaceMissingChar(s, "&quot;", "\"", 'q');
    AmpersandFirst(s);
    EntityReplaced("&lt;", "&lt;", "<");
    ReplaceMissingChar("<", "&gt;", ">", '&');
  }

  /** The `&amp;` pass turns the doubly escaped `<` into `&lt;`. */
  lemma AmpersandFirst(s: string)
    requires s == "&amp;lt;"
    ensures ReplaceAll(s, "&amp;", "&") == "&lt;"
  {
    assert StartsWith(s, "&amp;") && s[5..] == "lt;";
    ReplaceMissingChar("lt;", "&amp;", "&", '&');
  }

  /** A text that is exactly one entity becomes its replacement. */
  lemma EntityReplaced(s: string, pat: string, rep: string)
    requires pat != [] && s == pat
    ensures ReplaceAll(s, pat, rep) == rep
  {
    assert StartsWith(s, pat) && s[|pat|..] == [];
  }

  /** `replace(/<[^>]+>/g, '')`: every `<`, at least one character other than
      `>`, and the next `>` is removed, scanning left to right. */
  function StripTags(s: string): (r: string)
    ensures |r| <= |s|
    decreases |s|
  {
    if |s| == 0 then []
    else
      var close := FirstIndex(s[1..], (c: char) => c == '>');
      if s[0] == '<' && close.Some? && close.value > 0 then StripTags(s[close.value + 2..])
      else [s[0]] + StripTags(s[1..])
  }

  /** Stripping tags only removes characters, and a text without `<` has no
      tag to strip. */
  lemma {:induction false} StripTagsChars(s: string)
    ensures forall c :: c in StripTags(s) ==> c in s
    ensures '<' !in s ==> StripTags(s) == s
    decreases |s|
  {
    if |s| > 0 {
      var close := FirstIndex(s[1..], (c: char) => c == '>');
      if s[0] == '<' && close.Some? && close.value > 0 {
        var t := s[close.value + 2..];
        StripTagsChars(t);
        forall c | c in StripTags(t) ensures c in s {
          var k :| 0 <= k < |t| && t[k] == c;
          assert s[close.value + 2 + k] == c;
        }
      } else {
        StripTagsChars(s[1..]);
        assert '<' !in s ==> '<' !in s[1..];
      }
    }
  }

  /** One segment: entities decoded, newlines made spaces, tags removed, trimmed. */
  function CleanSegment(raw: string): (r: string)
    ensures '\n' !in r
  {
    var spaced := ReplaceAll(Unescape(raw), "\n", " ");
    ReplaceCharRemoves(Unescape(raw), '\n', " ");
    StripTagsChars(spaced);
    TrimChars(StripTags(spaced));
    Trim(StripTags(spaced))
  }

  // ---- The segment scanner ----

  const OpenTag: string := "<text"
  const CloseTag: string := "</text>"

  /** pat occurs in s at k. */
  predicate At(s: string, pat: string, k: nat)
    ensures At(s, pat, k) ==> k + |pat| <= |s|
    decreases |pat|
  {
    if pat == [] then k <= |s| else k < |s| && s[k] == pat[0] && At(s, pat[1..], k + 1)
  }

  /** The first occurrence of pat in s at or after from. */
  function IndexFrom(s: string, pat: string, from: nat): (r: Option<nat>)
    requires from <= |s|
    ensures r.Some? ==> from <= r.value && r.value + |pat| <= |s|
    decreases |s| - from
  {
    if At(s, pat, from) then Some(from)
    else if from == |s| then None
    else IndexFrom(s, pat, from + 1)
  }

  /** The occurrence found is the first one, and none is found only when
      there is none. */
  lemma {:induction false} IndexFromMeaning(s: string, pat: string, from: nat)
    requires from <= |s|
    ensures var r := IndexFrom(s, pat, from);
      && (r.Some? ==> At(s, pat, r.value) && forall k :: from <= k < r.value ==> !At(s, pat, k))
      && (r.None? ==> forall k :: from <= k <= |s| ==> !At(s, pat, k))
    decreases |s| - from
  {
    if !At(s, pat, from) && from < |s| {
      IndexFromMeaning(s, pat, from + 1);
    }
  }

  /** The first position of c in s at or after from. */
  function CharFrom(s: string, c: char, from: nat): (r: Option<nat>)
    requires from <= |s|
    ensures r.Some? ==> from <= r.value < |s|
    decreases |s| - from
  {
    if from == |s| then None
    else if s[from] == c then Some(from)
    else CharFrom(s, c, from + 1)
  }

  /** The position found holds c and is the first one that does. */
  lemma {:induction false} CharFromMeaning(s: string, c: char, from: nat)
    requires from <= |s|
    ensures var r := CharFrom(s, c, from);
      && (r.Some? ==> s[r.value] == c && forall k :: from <= k < r.value ==> s[k] != c)
      && (r.None? ==> forall k :: from <= k < |s| ==> s[k] != c)
    decreases |s| - from
  {
    if from < |s| && s[from] != c {
      CharFromMeaning(s, c, from + 1);
    }
  }

  /** A match of `/<text[^>]*>([\s\S]*?)<\/text>/`: the captured text is
      s[bodyStart..bodyEnd], and the closing tag ends at bodyEnd + 7. */
  datatype Match = Match(start: nat, bodyStart: nat, bodyEnd: nat)

  /** The pattern tried at position p: `<text`, everything up to the first
      `>`, and the shortest text up to a `</text>`. */
  function MatchAt(xml: string, p: nat): (m: Option<Match>)
    requires p <= |xml|
    ensures m.Some? ==> m.value.start == p && p + 5 < m.value.bodyStart <= m.value.bodyEnd <= |xml| - 7
  {
    if !At(xml, OpenTag, p) then None
    else match CharFrom(xml, '>', p + 5)
      case None => None
      case Some(g) =>
        match IndexFrom(xml, CloseTag, g + 1)
        case None => None
        case Some(e) => Some(Match(p, g + 1, e))
  }

  /** What a match at p means: `<text` at p, the first `>` after it just
      before the captured text, and the first `</text>` after that just after it. */
  lemma MatchAtMeaning(xml: string, p: nat)
    requires p <= |xml| && MatchAt(xml, p).Some?
    ensures var m := MatchAt(xml, p).value;
      && At(xml, OpenTag, p)
      && xml[m.bodyStart - 1] == '>'
      && (forall k :: p + 5 <= k < m.bodyStart - 1 ==> xml[k] != '>')
      && At(xml, CloseTag, m.bodyEnd)
      && (forall k :: m.bodyStart <= k < m.bodyEnd ==> !At(xml, CloseTag, k))
  {
    CharFromMeaning(xml, '>', p + 5);
    IndexFromMeaning(xml, CloseTag, MatchAt(xml, p).value.bodyStart);
  }

  /** Conversely, `<text` at p, a later `>` and a `</text>` after it make a
      match at p. */
  lemma MatchAtComplete(xml: string, p: nat, g: nat, e: nat)
    requires p <= |xml| && At(xml, OpenTag, p)
    requires p + 5 <= g < e <= |xml| && xml[g] == '>' && At(xml, CloseTag, e)
    ensures MatchAt(xml, p).Some?
  {
    CharFromMeaning(xml, '>', p + 5);
    IndexFromMeaning(xml, CloseTag, CharFrom(xml, '>', p + 5).value + 1);
  }

  /** Without `<text` at p there is no match at p. */
  lemma NoOpenTagNoMatch(xml: string, p: nat)
    requires p <= |xml| && !At(xml, OpenTag, p)
    ensures MatchAt(xml, p).None?
  {
  }

  /** `re.exec` from lastIndex: the match at the leftmost position from
      there on, or none. */
  function NextMatch(xml: string, from: nat): (m: Option<Match>)
    requires from <= |xml|
    ensures m.Some? ==> from <= m.value.start <= |xml| && MatchAt(xml, m.value.start) == m
    decreases |xml| - from
  {
    match MatchAt(xml, from)
    case Some(mt) => Some(mt)
    case None => if from == |xml| then None else NextMatch(xml, from + 1)
  }

  /** The match re.exec finds is the leftmost one: there is none before it,
      and none at all when it finds nothing. */
  lemma {:induction false} NextMatchLeftmost(xml: string, from: nat, p: nat)
    requires from <= p <= |xml|
    requires NextMatch(xml, from).Some? ==> p < NextMatch(xml, from).value.start
    ensures MatchAt(xml, p).None?
    decreases |xml| - from
  {
    if p > from {
      NextMatchLeftmost(xml, from + 1, p);
    }
  }

  /** re.exec finds a match whenever there is one from lastIndex on, and it
      starts no later than that one. */
  lemma {:induction false} NextMatchFinds(xml: string, from: nat, p: nat)
    requires from <= p <= |xml| && MatchAt(xml, p).Some?
    ensures NextMatch(xml, from).Some? && NextMatch(xml, from).value.start <= p
    decreases |xml| - from
  {
    if MatchAt(xml, from).None? {
      NextMatchFinds(xml, from + 1, p);
    }
  }

  /** `if (cleaned) lines.push(cleaned)`: what one segment adds. */
  function Keep(cleaned: string): (r: seq<string>)
    ensures r == [] || r == [cleaned]
    ensures r != [] <==> cleaned != ""
  {
    if cleaned != "" then [cleaned] else []
  }

  /** The captured texts of the matches from lastIndex `from` on, in order. */
  function SegmentsFrom(xml: string, from: nat): (segs: seq<string>)
    requires from <= |xml|
    decreases |xml| - from
  {
    match NextMatch(xml, from)
    case None => []
    case Some(m) => [xml[m.bodyStart..m.bodyEnd]] + SegmentsFrom(xml, m.bodyEnd + 7)
  }

  /** One step of the scan: the captured text of the next match, then the rest. */
  lemma SegmentsFromStep(xml: string, from: nat, m: Match)
    requires from <= |xml| && NextMatch(xml, from) == Some(m)
    ensures SegmentsFrom(xml, from) == [xml[m.bodyStart..m.bodyEnd]] + SegmentsFrom(xml, m.bodyEnd + 7)
  {
  }

  /** The scan keeps the segments seen so far followed by the segments
      still ahead equal to all the segments, and moves forward. */
  lemma SegmentsAdvance(xml: string, from: nat, m: Match, raw: string, next: nat,
                        seen: seq<string>, all: seq<string>)
    requires from <= |xml| && NextMatch(xml, from) == Some(m)
    requires raw == xml[m.bodyStart..m.bodyEnd] && next == m.bodyEnd + 7
    requires seen + SegmentsFrom(xml, from) == all
    ensures from < next <= |xml|
    ensures (seen + [raw]) + SegmentsFrom(xml, next) == all
  {
    SegmentsFromStep(xml, from, m);
    AppendAssociates(seen, [raw], SegmentsFrom(xml, next));
  }

  /** When re.exec finds nothing more, the segments seen are all of them. */
  lemma SegmentsDone(xml: string, from: nat, seen: seq<string>, all: seq<string>)
    requires from <= |xml| && NextMatch(xml, from).None?
    requires seen + SegmentsFrom(xml, from) == all
    ensures seen == all
  {
    assert seen + [] == seen;
  }

  /** The lines pushed for the segments, in order. */
  function Cleaned(segs: seq<string>): (lines: seq<string>)
    ensures |lines| <= |segs|
  {
    if segs == [] then []
    else Cleaned(segs[..|segs| - 1]) + Keep(CleanSegment(segs[|segs| - 1]))
  }

  /** The transcript lines of a caption file. */
  function CaptionLines(xml: string): seq<string> {
    Cleaned(SegmentsFrom(xml, 0))
  }

  /** Every pushed line is non-empty and has no newline. */
  lemma {:induction false} CleanedLines(segs: seq<string>)
    ensures forall line :: line in Cleaned(segs) ==> line != "" && '\n' !in line
  {
    if segs != [] {
      var init := Cleaned(segs[..|segs| - 1]);
      var kept := Keep(CleanSegment(segs[|segs| - 1]));
      CleanedLines(segs[..|segs| - 1]);
      assert forall line :: line in init + kept ==> line in init || line in kept;
    }
  }

  /** `m[1]` and the new lastIndex for a match m found from lastIndex: the
      captured text is the next segment, and the scan resumes after the match. */
  method Capture(xml: string, lastIndex: nat, m: Match, ghost seen: seq<string>, ghost all: seq<string>)
    returns (raw: string, next: nat)
    requires lastIndex <= |xml| && NextMatch(xml, lastIndex) == Some(m)
    requires seen + SegmentsFrom(xml, lastIndex) == all
    ensures lastIndex < next <= |xml|
    ensures (seen + [raw]) + SegmentsFrom(xml, next) == all
  {
    raw := xml[m.bodyStart..m.bodyEnd];
    next := m.bodyEnd + 7;
    SegmentsAdvance(xml, lastIndex, m, raw, next, seen, all);
  }

  /** `if (cleaned) lines.push(cleaned)` for the captured text raw. */
  method PushCleaned(ghost seen: seq<string>, lines: seq<string>, raw: string) returns (pushed: seq<string>)
    requires lines == Cleaned(seen)
    ensures pushed == Cleaned(seen + [raw])
  {
    assert (seen + [raw])[..|seen|] == seen;
    var cleaned := CleanSegment(raw);
    pushed := lines;
    if cleaned != "" {
      pushed := pushed + [cleaned];
    }
  }

  /** The extraction loop: `while ((m = re.exec(xml)) !== null)`, pushing
      each cleaned segment that is not empty. */
  method ExtractLines(xml: string) returns (lines: seq<string>)
    ensures lines == CaptionLines(xml)
  {
    lines := [];
    var lastIndex: nat := 0;
    ghost var seen: seq<string> := [];
    ghost var all := SegmentsFrom(xml, 0);
    var m := NextMatch(xml, lastIndex);
    while m.Some?
      invariant lastIndex <= |xml|
      invariant m == NextMatch(xml, lastIndex)
      invariant seen + SegmentsFrom(xml, lastIndex) == all
      invariant lines == Cleaned(seen)
      decreases |xml| - lastIndex
    {
      var raw, next := Capture(xml, lastIndex, m.value, seen, all);
      lines := PushCleaned(seen, lines, raw);
      seen := seen + [raw];
      lastIndex := next;
      m := NextMatch(xml, lastIndex);
    }
    SegmentsDone(xml, lastIndex, seen, all);
  }

  // ---- The script ----

  /** Why the script stopped, each with its exit code. */
  datatype ScriptError =
    | Usage
    | PageHttp(status: int)
    | NoPlayerResponse
    | PlayerJsonInvalid
    | NoCaptionTracks
    | NoBaseUrl
    | CaptionHttp(status: int)
    | EmptyTranscript

  function ExitCode(e: ScriptError): int {
    if e == Usage then 2 else 1
  }

  /** The watch page download: a failed status, a page without a player
      response, one whose JSON does not parse, or the caption track list
      (None when it is missing or not an array). */
  datatype PageFetch =
    | PageHttpError(status: int)
    | PlayerMissing
    | PlayerUnparsable
    | PlayerResponse(tracks: Option<seq<Track>>)

  datatype CaptionFetch = CaptionHttpError(status: int) | CaptionXml(xml: string)

  /** What the process leaves behind: an exit code with its error, or the
      text on standard output and the file it wrote, if any. */
  datatype Outcome = Exit(code: int, error: ScriptError) | Printed(stdout: string, written: Option<(string, string)>)

  function Fail(e: ScriptError): Outcome {
    Exit(ExitCode(e), e)
  }

  /** The track whose captions are downloaded, or why there is none. */
  function Selected(langPref: Option<string>, page: PageFetch): (r: Result<Track>)
    ensures r.Ok? ==> page.PlayerResponse? && page.tracks.Some? && r.value in page.tracks.value
    ensures r.Ok? ==> Truthy(r.value.baseUrl)
    ensures page.PageHttpError? ==> r == Err(PageHttp(page.status))
    ensures page.PlayerMissing? ==> r == Err(NoPlayerResponse)
    ensures page.PlayerUnparsable? ==> r == Err(PlayerJsonInvalid)
    ensures page.PlayerResponse? && (page.tracks.None? || page.tracks.value == []) ==> r == Err(NoCaptionTracks)
    ensures r.Ok? <==>
      && page.PlayerResponse? && page.tracks.Some? && page.tracks.value != []
      && Truthy(ChooseTrack(page.tracks.value, langPref).baseUrl)
    ensures r.Ok? ==> r.value == ChooseTrack(page.tracks.value, langPref)
    ensures r == Err(NoBaseUrl) <==>
      && page.PlayerResponse? && page.tracks.Some? && page.tracks.value != []
      && !Truthy(ChooseTrack(page.tracks.value, langPref).baseUrl)
  {
    match page
    case PageHttpError(status) => Err(PageHttp(status))
    case PlayerMissing => Err(NoPlayerResponse)
    case PlayerUnparsable => Err(PlayerJsonInvalid)
    case PlayerResponse(tracks) =>
      if tracks.None? || tracks.value == [] then Err(NoCaptionTracks)
      else
        var chosen := ChooseTrack(tracks.value, langPref);
        if !Truthy(chosen.baseUrl) then Err(NoBaseUrl) else Ok(chosen)
  }

  datatype Result<T> = Ok(value: T) | Err(error: ScriptError)

  /** The end of the script: no lines is an error; otherwise the transcript
      goes to the --out file, with its path printed, or to standard output. */
  function Emit(outPath: Option<string>, lines: seq<string>): (o: Outcome)
    ensures o.Exit? <==> lines == []
    ensures o.Exit? ==> o == Exit(1, EmptyTranscript)
    ensures o.Printed? && Truthy(outPath) ==>
      o.written == Some((outPath.value, Join(lines, '\n'))) && o.stdout == outPath.value + "\n"
    ensures o.Printed? && !Truthy(outPath) ==> o.written.None? && o.stdout == Join(lines, '\n') + "\n"
  {
    if lines == [] then Fail(EmptyTranscript)
    else if Truthy(outPath) then Printed(outPath.value + "\n", Some((outPath.value, Join(lines, '\n'))))
    else Printed(Join(lines, '\n') + "\n", None)
  }

  /** The whole script as a function of its inputs. */
  function ScriptOutcome(args: seq<string>, page: string -> PageFetch, captions: string -> CaptionFetch): Outcome {
    if |args| == 0 || args[0] == "" then Fail(Usage)
    else
      match Selected(ArgValue(args, "--lang", None), page(args[0]))
      case Err(e) => Fail(e)
      case Ok(track) =>
        match captions(track.baseUrl.value)
        case CaptionHttpError(status) => Fail(CaptionHttp(status))
        case CaptionXml(xml) => Emit(ArgValue(args, "--out", None), CaptionLines(xml))
  }

  /** The script run: the downloads are the functions page and captions. */
  method Run(args: seq<string>, page: string -> PageFetch, captions: string -> CaptionFetch)
    returns (out: Outcome)
    ensures out == ScriptOutcome(args, page, captions)
  {
    if |args| == 0 || args[0] == "" {
      return Fail(Usage);
    }
    var url := args[0];
    var langPref := ArgValue(args, "--lang", None);
    var outPath := ArgValue(args, "--out", None);
    var selected := Selected(langPref, page(url));
    if selected.Err? {
      return Fail(selected.error);
    }
    var fetched := captions(selected.value.baseUrl.value);
    if fetched.CaptionHttpError? {
      return Fail(CaptionHttp(fetched.status));
    }
    var lines := ExtractLines(fetched.xml);
    if lines == [] {
      return Fail(EmptyTranscript);
    }
    var transcript := Join(lines, '\n');
    if Truthy(outPath) {
      out := Printed(outPath.value + "\n", Some((outPath.value, transcript)));
    } else {
      out := Printed(transcript + "\n", None);
    }
  }

  /** A missing URL is a usage error with exit code 2, whatever else is given. */
  lemma MissingUrlIsUsage(args: seq<string>, page: string -> PageFetch, captions: string -> CaptionFetch)
    requires |args| == 0 || args[0] == ""
    ensures ScriptOutcome(args, page, captions) == Exit(2, Usage)
  {
  }

  /** The exit sites once a URL is given: a page that yields no track
      (HTTP error, no or unparsable player response, no tracks, no base URL)
      and a caption download with an HTTP error each exit 1 with that error,
      and so does every other failure past the usage check. */
  lemma ExitCodes(args: seq<string>, page: string -> PageFetch, captions: string -> CaptionFetch)
    requires |args| > 0 && args[0] != ""
    ensures var o := ScriptOutcome(args, page, captions);
      var sel := Selected(ArgValue(args, "--lang", None), page(args[0]));
      && (sel.Err? ==> o == Exit(1, sel.error))
      && (sel.Ok? && captions(sel.value.baseUrl.value).CaptionHttpError? ==>
            o == Exit(1, CaptionHttp(captions(sel.value.baseUrl.value).status)))
      && (o.Exit? ==> o.code == 1 && o.error != Usage)
  {
    var sel := Selected(ArgValue(args, "--lang", None), page(args[0]));
    if sel.Err? {
      assert sel.error != Usage;
    }
  }

  /** The written or printed transcript splits on newlines into exactly the
      kept lines, each non-empty and without a newline. */
  lemma TranscriptSplitsIntoLines(outPath: Option<string>, xml: string)
    requires CaptionLines(xml) != []
    ensures var lines := CaptionLines(xml); var o := Emit(outPath, lines);
      && (forall line :: line in lines ==> line != "" && '\n' !in line)
      && o.Printed?
      && (o.written.Some? ==> Split(o.written.value.1, '\n') == lines)
      && (o.written.None? ==> Split(o.stdout[..|o.stdout| - 1], '\n') == lines)
  {
    var lines := CaptionLines(xml);
    CleanedLines(SegmentsFrom(xml, 0));
    SplitJoin(lines, '\n');
    var t := Join(lines, '\n');
    assert (t + "\n")[..|t + "\n"| - 1] == t;
  }

  /** Captions whose segments all clean to nothing end the script with exit 1
      and no transcript. */
  lemma EmptyCaptionsExitOne(args: seq<string>, page: string -> PageFetch, captions: string -> CaptionFetch)
    requires |args| > 0 && args[0] != ""
    requires var s := Selected(ArgValue(args, "--lang", None), page(args[0]));
      s.Ok? && captions(s.value.baseUrl.value).CaptionXml?
      && CaptionLines(captions(s.value.baseUrl.value).xml) == []
    ensures ScriptOutcome(args, page, captions) == Exit(1, EmptyTranscript)
  {
  }
}
