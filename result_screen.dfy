/**
 * The decision logic of the result screen: which education text is shown
 * for a style, which prompt template is sent to the text generator, the
 * fallback sentence, and the name of the downloaded file.
 */
module ResultScreen {
  import opened Common
  import opened Text

  // ---------------------------------------------------------------------
  // Pre-authored texts for the oriental styles
  // ---------------------------------------------------------------------

  /** The `description` fields of the pre-authored oriental education
      content (defined in a data file outside this model). */
  datatype OrientalContent = OrientalContent(
    korean: string,
    chineseGongbi: string,
    chineseInk: string,
    japanese: string)

  const OrientalIds: set<string> := {"korean", "chinese", "japanese"}

  /** `aiSelectedArtist?.toLowerCase() || ''`. */
  function ArtistLabel(artist: Option<string>): string
  {
    if artist.Some? then ToLower(artist.value) else ""
  }

  /** The lowered label names the gongbi (fine-line) technique. */
  predicate MarksGongbi(lowered: string)
  {
    Contains(lowered, "gongbi") || Contains(lowered, "공필")
  }

  /** `getOrientalEducation`: the pre-authored text for the style id, or
      `null` for an id without one. */
  function GetOrientalEducation(styleId: string, artist: Option<string>, content: OrientalContent): (r: Option<string>)
    ensures r.Some? <==> styleId in OrientalIds
    ensures styleId == "korean" ==> r == Some(content.korean)
    ensures styleId == "japanese" ==> r == Some(content.japanese)
    ensures styleId == "chinese" ==> r == Some(content.chineseGongbi) || r == Some(content.chineseInk)
  {
    if styleId == "korean" then
      Some(content.korean)
    else if styleId == "chinese" then
      if MarksGongbi(ArtistLabel(artist)) then Some(content.chineseGongbi) else Some(content.chineseInk)
    else if styleId == "japanese" then
      Some(content.japanese)
    else
      None
  }

  /** An artist label that contains any case variant of "gongbi" selects the gongbi text. */
  lemma GongbiAnyCase(artist: string, marker: string, content: OrientalContent)
    requires Contains(artist, marker) && ToLower(marker) == "gongbi"
    ensures GetOrientalEducation("chinese", Some(artist), content) == Some(content.chineseGongbi)
  {
    LowerKeepsContains(artist, marker);
  }

  /** An artist label that contains the Hangul marker "공필" selects the gongbi text. */
  lemma GongbiHangul(artist: string, content: OrientalContent)
    requires Contains(artist, "공필")
    ensures GetOrientalEducation("chinese", Some(artist), content) == Some(content.chineseGongbi)
  {
  }

  /** Without a marker in the lowered label, and in particular without any
      label, the ink-wash text is chosen. */
  lemma InkByDefault(artist: Option<string>, content: OrientalContent)
    requires !MarksGongbi(ArtistLabel(artist))
    ensures GetOrientalEducation("chinese", artist, content) == Some(content.chineseInk)
  {
  }

  /** No label at all satisfies the ink-wash case. */
  lemma MissingArtistIsInk(content: OrientalContent)
    ensures GetOrientalEducation("chinese", None, content) == Some(content.chineseInk)
  {
  }

  // ---------------------------------------------------------------------
  // Prompt templates for the text generator
  // ---------------------------------------------------------------------

  const PeriodCategories: set<string> := {"ancient", "byzantineIslamic"}
  const MovementCategories: set<string> :=
    {"impressionism", "postImpressionism", "fauvism", "expressionism",
     "renaissance", "baroque", "rococo", "romanticism"}
  const MasterCategories: set<string> := {"masters"}

  // The bodies of the three templates are opaque here; only the places
  // where the style name and the artist label are spliced in are kept.
  const PeriodText0: string := "<period template: role and chosen movement>"
  const PeriodText1: string := "<period template: format, first sentence>"
  const PeriodText2: string := "<period template: second sentence>"
  const PeriodText3: string := "<period template: remaining sentences and example>"
  const PainterText0: string := "<painter template: role and chosen movement>"
  const PainterText1: string := "<painter template: chosen painter>"
  const PainterText2: string := "<painter template: format and example>"
  const MasterText0: string := "<master template: role and chosen master>"
  const MasterText1: string := "<master template: format and example>"

  /** Template A: movements defined by period and place rather than a painter. */
  function PeriodPrompt(name: string): string
  {
    PeriodText0 + name + PeriodText1 + name + PeriodText2 + name + PeriodText3
  }

  /** Template B: movements whose text names a painter. */
  function PainterPrompt(name: string, painter: string): string
  {
    PainterText0 + name + PainterText1 + painter + PainterText2
  }

  /** Template C: a single master painter. */
  function MasterPrompt(name: string): string
  {
    MasterText0 + name + MasterText1
  }

  /** `aiSelectedArtist || selectedStyle.name`. */
  function PainterLabel(style: Style, artist: Option<string>): string
  {
    if artist.Some? && artist.value != "" then artist.value else style.name
  }

  /** `buildPrompt`: the template chosen by the style's category, or the
      empty string for every other category (including `oriental`). */
  function BuildPrompt(style: Style, artist: Option<string>): string
  {
    var category := style.category;
    if category == "ancient" || category == "byzantineIslamic" then
      PeriodPrompt(style.name)
    else if category == "impressionism" || category == "postImpressionism" ||
            category == "fauvism" || category == "expressionism" ||
            category == "renaissance" || category == "baroque" ||
            category == "rococo" || category == "romanticism" then
      PainterPrompt(style.name, PainterLabel(style, artist))
    else if category == "masters" then
      MasterPrompt(style.name)
    else
      ""
  }

  /** The template is selected by membership of the category in the three groups. */
  lemma BuildPromptChoice(style: Style, artist: Option<string>)
    ensures style.category in PeriodCategories ==> BuildPrompt(style, artist) == PeriodPrompt(style.name)
    ensures style.category in MovementCategories ==>
      BuildPrompt(style, artist) == PainterPrompt(style.name, PainterLabel(style, artist))
    ensures style.category in MasterCategories ==> BuildPrompt(style, artist) == MasterPrompt(style.name)
    ensures style.category !in PeriodCategories + MovementCategories + MasterCategories ==>
      BuildPrompt(style, artist) == ""
  {
  }

  /** Exactly one of: template A, template B, template C, the empty prompt. */
  lemma ExactlyOneTemplate(style: Style, artist: Option<string>)
    ensures (if style.category in PeriodCategories then 1 else 0)
          + (if style.category in MovementCategories then 1 else 0)
          + (if style.category in MasterCategories then 1 else 0)
          + (if BuildPrompt(style, artist) == "" then 1 else 0) == 1
  {
  }

  lemma PeriodPromptNamesStyle(name: string)
    ensures Contains(PeriodPrompt(name), name)
  {
    ContainsInfix(PeriodText0, name, PeriodText1 + name + PeriodText2 + name + PeriodText3);
    assert PeriodPrompt(name) == PeriodText0 + name + (PeriodText1 + name + PeriodText2 + name + PeriodText3);
  }

  lemma PainterPromptNamesBoth(name: string, painter: string)
    ensures Contains(PainterPrompt(name, painter), name)
    ensures Contains(PainterPrompt(name, painter), painter)
  {
    ContainsInfix(PainterText0, name, PainterText1 + painter + PainterText2);
    assert PainterPrompt(name, painter) == PainterText0 + name + (PainterText1 + painter + PainterText2);
    ContainsInfix(PainterText0 + name + PainterText1, painter, PainterText2);
  }

  lemma MasterPromptNamesStyle(name: string)
    ensures Contains(MasterPrompt(name), name)
  {
    ContainsInfix(MasterText0, name, MasterText1);
  }

  /** Every non-empty prompt names the style, and template B also names the
      painter: the AI-selected artist when there is one, the style name otherwise. */
  lemma BuildPromptSplicesNames(style: Style, artist: Option<string>)
    ensures BuildPrompt(style, artist) != "" ==> Contains(BuildPrompt(style, artist), style.name)
    ensures style.category in MovementCategories && artist.Some? && artist.value != "" ==>
      Contains(BuildPrompt(style, artist), artist.value)
  {
    BuildPromptChoice(style, artist);
    if style.category in PeriodCategories {
      PeriodPromptNamesStyle(style.name);
    } else if style.category in MovementCategories {
      PainterPromptNamesBoth(style.name, PainterLabel(style, artist));
    } else if style.category in MasterCategories {
      MasterPromptNamesStyle(style.name);
    }
  }

  // ---------------------------------------------------------------------
  // Fallback sentence
  // ---------------------------------------------------------------------

  const FallbackLead: string := "이 작품은 "
  const FallbackTail: string := " 스타일로 변환되었습니다."

  /** `getFallbackMessage`: "이 작품은 <name> 스타일로 변환되었습니다." */
  function FallbackMessage(name: string): string
  {
    FallbackLead + name + FallbackTail
  }

  /** The fallback sentence has the fixed lead and tail, and the style name
      can be read back from between them. */
  lemma FallbackNamesStyle(name: string)
    ensures var m := FallbackMessage(name);
      |m| == |FallbackLead| + |name| + |FallbackTail| &&
      m[..|FallbackLead|] == FallbackLead &&
      m[|m| - |FallbackTail|..] == FallbackTail &&
      m[|FallbackLead|..|m| - |FallbackTail|] == name
  {
  }

  /** Two styles with different names never share a fallback sentence. */
  lemma FallbackInjective(a: string, b: string)
    requires FallbackMessage(a) == FallbackMessage(b)
    ensures a == b
  {
    FallbackNamesStyle(a);
    FallbackNamesStyle(b);
  }

  // ---------------------------------------------------------------------
  // generate2ndEducation
  // ---------------------------------------------------------------------

  /** The JSON body of a `/api/generate-education` reply; a missing `text`
      is the empty string (both are falsy). */
  datatype EducationBody = EducationBody(success: bool, text: string)

  /** What the education request gives back: `fetch` rejects, or a response
      whose body parses to JSON (`Some`) or does not (`None`). */
  datatype EducationReply =
    | NetworkError
    | HttpReply(ok: bool, body: Option<EducationBody>)

  /** The one text the panel ends up showing, tagged by where it came from. */
  datatype Education =
    | StaticText(text: string)
    | GeneratedText(text: string)
    | FallbackText(text: string)

  /** The pre-authored text used in place of a request: only for the
      `oriental` category, and only when the lookup gives a non-empty text. */
  function StaticEducation(style: Style, artist: Option<string>, content: OrientalContent): (r: Option<string>)
    ensures r.Some? ==> style.category == "oriental" && style.id in OrientalIds && r.value != ""
    ensures (style.category == "oriental" && GetOrientalEducation(style.id, artist, content).Some? &&
             GetOrientalEducation(style.id, artist, content).value != "") ==>
      r == GetOrientalEducation(style.id, artist, content)
  {
    if style.category == "oriental" then
      match GetOrientalEducation(style.id, artist, content)
      case Some(text) => if text != "" then Some(text) else None
      case None => None
    else
      None
  }

  /** The reply is accepted as generated text. */
  predicate Accepted(reply: EducationReply)
  {
    reply.HttpReply? && reply.ok && reply.body.Some? &&
    reply.body.value.success && reply.body.value.text != ""
  }

  /** The outcome of `generate2ndEducation` as a value. */
  function EducationOutcome(style: Style, artist: Option<string>, content: OrientalContent, reply: EducationReply): Education
  {
    match StaticEducation(style, artist, content)
    case Some(text) => StaticText(text)
    case None =>
      if Accepted(reply) then GeneratedText(reply.body.value.text)
      else FallbackText(FallbackMessage(style.name))
  }

  /** Static text is used exactly when a pre-authored text exists; otherwise
      the generated text is shown exactly when the reply is ok, successful
      and non-empty, and in every other case the fallback sentence. */
  lemma EducationSources(style: Style, artist: Option<string>, content: OrientalContent, reply: EducationReply)
    ensures EducationOutcome(style, artist, content, reply).StaticText? <==> StaticEducation(style, artist, content).Some?
    ensures StaticEducation(style, artist, content).None? ==>
      (EducationOutcome(style, artist, content, reply).GeneratedText? <==> Accepted(reply))
    ensures StaticEducation(style, artist, content).None? && Accepted(reply) ==>
      EducationOutcome(style, artist, content, reply) == GeneratedText(reply.body.value.text)
    ensures StaticEducation(style, artist, content).None? && !Accepted(reply) ==>
      EducationOutcome(style, artist, content, reply) == FallbackText(FallbackMessage(style.name))
    ensures EducationOutcome(style, artist, content, reply).GeneratedText? ==>
      EducationOutcome(style, artist, content, reply).text != ""
  {
  }

  /** Korean and Japanese styles show their pre-authored text (when it is
      non-empty), whatever the network would have said. */
  lemma KoreanJapaneseStatic(style: Style, artist: Option<string>, content: OrientalContent, reply: EducationReply)
    requires style.category == "oriental"
    requires style.id == "korean" || style.id == "japanese"
    requires style.id == "korean" ==> content.korean != ""
    requires style.id == "japanese" ==> content.japanese != ""
    ensures StaticEducation(style, artist, content).Some?
    ensures EducationOutcome(style, artist, content, reply) ==
      StaticText(if style.id == "korean" then content.korean else content.japanese)
  {
  }

  /** A chinese oriental style shows the gongbi text when the lowered artist
      label carries a marker, and the ink-wash text otherwise (each when that
      text is non-empty), with no request. */
  lemma ChineseStatic(style: Style, artist: Option<string>, content: OrientalContent, reply: EducationReply)
    requires style.category == "oriental" && style.id == "chinese"
    requires MarksGongbi(ArtistLabel(artist)) ==> content.chineseGongbi != ""
    requires !MarksGongbi(ArtistLabel(artist)) ==> content.chineseInk != ""
    ensures StaticEducation(style, artist, content).Some?
    ensures EducationOutcome(style, artist, content, reply) ==
      StaticText(if MarksGongbi(ArtistLabel(artist)) then content.chineseGongbi else content.chineseInk)
  {
  }

  /** An oriental style without pre-authored text still sends a request,
      with the empty prompt. */
  lemma UnknownOrientalSendsEmptyPrompt(style: Style, artist: Option<string>, content: OrientalContent)
    requires style.category == "oriental" && style.id !in OrientalIds
    ensures StaticEducation(style, artist, content).None?
    ensures BuildPrompt(style, artist) == ""
  {
  }

  /** A simulated network error gives exactly the fallback sentence. */
  lemma NetworkErrorShowsFallback(style: Style, artist: Option<string>, content: OrientalContent)
    requires StaticEducation(style, artist, content).None?
    ensures EducationOutcome(style, artist, content, NetworkError).text ==
      "이 작품은 " + style.name + " 스타일로 변환되었습니다."
  {
  }

  /** The view state that `generate2ndEducation` updates, and the prompts it
      has posted to the education endpoint. */
  class EducationPanel {
    var educationText: string
    var isLoadingEducation: bool
    var sentPrompts: seq<string>

    /** `useState('')`, `useState(true)`, nothing sent yet. */
    constructor ()
      ensures educationText == "" && isLoadingEducation && sentPrompts == []
    {
      educationText := "";
      isLoadingEducation := true;
      sentPrompts := [];
    }

    /** `generate2ndEducation`, with the reply to the education request as an
        input: the loading flag ends false on every path, the shown text is
        the outcome above, and a request is posted exactly when no
        pre-authored text is used. */
    method Generate2ndEducation(style: Style, artist: Option<string>, content: OrientalContent, reply: EducationReply)
      modifies this
      ensures !isLoadingEducation
      ensures educationText == EducationOutcome(style, artist, content, reply).text
      ensures sentPrompts == old(sentPrompts) +
        (if StaticEducation(style, artist, content).Some? then [] else [BuildPrompt(style, artist)])
    {
      isLoadingEducation := true;
      if style.category == "oriental" {
        var preauthored := GetOrientalEducation(style.id, artist, content);
        if preauthored.Some? && preauthored.value != "" {
          educationText := preauthored.value;
          isLoadingEducation := false;
          return;
        }
      }
      var prompt := BuildPrompt(style, artist);
      sentPrompts := sentPrompts + [prompt];
      // The value of the try block; None when it throws.
      var generated: Option<string> := None;
      match reply {
        case NetworkError =>
        case HttpReply(ok, body) =>
          if ok && body.Some? && body.value.success && body.value.text != "" {
            generated := Some(body.value.text);
          }
      }
      if generated.Some? {
        educationText := generated.value;
      } else {
        educationText := FallbackMessage(style.name);
      }
      isLoadingEducation := false;
    }
  }

  // ---------------------------------------------------------------------
  // Download filename
  // ---------------------------------------------------------------------

  const FilePrefix: string := "picoart-"
  const FileSuffix: string := ".jpg"

  /** The filename of `handleDownload`, with `Date.now()` as the input `timestamp`. */
  function DownloadFilename(styleId: string, timestamp: nat): string
  {
    FilePrefix + styleId + "-" + NatToString(timestamp) + FileSuffix
  }

  /** The filename reads `picoart-<styleId>-<digits>.jpg`, and the digits
      are the decimal rendering of the timestamp. */
  lemma DownloadFilenameFormat(styleId: string, timestamp: nat)
    ensures var f := DownloadFilename(styleId, timestamp);
      var head := |FilePrefix| + |styleId| + 1;
      head + |FileSuffix| < |f| &&
      f[..head] == FilePrefix + styleId + "-" &&
      f[|f| - |FileSuffix|..] == FileSuffix &&
      AllDigits(f[head..|f| - |FileSuffix|]) &&
      DigitsValue(f[head..|f| - |FileSuffix|]) == timestamp
  {
    var f := DownloadFilename(styleId, timestamp);
    var head := |FilePrefix| + |styleId| + 1;
    assert f[head..|f| - |FileSuffix|] == NatToString(timestamp);
    NatToStringRoundTrip(timestamp);
  }

  /** Downloads of one style at different times get different names. */
  lemma DownloadFilenameInjective(styleId: string, t1: nat, t2: nat)
    requires DownloadFilename(styleId, t1) == DownloadFilename(styleId, t2)
    ensures t1 == t2
  {
    DownloadFilenameFormat(styleId, t1);
    DownloadFilenameFormat(styleId, t2);
  }
}
