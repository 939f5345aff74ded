/**
 * The result view (components/MineralResult.tsx): the three-band colour of
 * the confidence bar, and the page it renders from an analysis: every list
 * field one entry per element in list order, identification reasons
 * numbered from 1, bar widths as percentages. The page is proved to carry
 * the whole analysis: reading it back gives the analysis unchanged.
 */
module MineralResult {
  import opened Types
  import opened Strings
  import ImageUpload

  /** The colour band of the confidence bar. */
  datatype Band = Green | Yellow | Red

  /** `confidenceColor`: green from 80, yellow from 50, red below (out-of-range values included). */
  function ConfidenceBand(level: int): (band: Band)
    ensures band == Green <==> 80 <= level
    ensures band == Yellow <==> 50 <= level < 80
    ensures band == Red <==> level < 50
  {
    if level >= 80 then Green
    else if level >= 50 then Yellow
    else Red
  }

  /** The CSS class of each band. */
  function BandClass(band: Band): string
  {
    match band
    case Green => "bg-green-500"
    case Yellow => "bg-yellow-500"
    case Red => "bg-red-500"
  }

  /** Each band has a class of its own, so the bar's colour tells the bands apart. */
  lemma BandClassesDistinct(first: Band, second: Band)
    ensures BandClass(first) == BandClass(second) <==> first == second
  {
  }

  /** Bands ordered from worst to best. */
  function BandRank(band: Band): nat
  {
    match band
    case Red => 0
    case Yellow => 1
    case Green => 2
  }

  /** A higher confidence never shows a worse band. */
  lemma BandMonotone(lower: int, higher: int)
    requires lower <= higher
    ensures BandRank(ConfidenceBand(lower)) <= BandRank(ConfidenceBand(higher))
  {
  }

  /** `${n}%`. */
  function Percent(n: int): string
  {
    IntToString(n) + "%"
  }

  /** Reads a rendered percentage back. */
  function ParsePercent(s: string): Option<int>
  {
    if 0 < |s| && s[|s| - 1] == '%' then ParseInt(s[..|s| - 1]) else None
  }

  lemma PercentRoundTrip(n: int)
    ensures ParsePercent(Percent(n)) == Some(n)
  {
    assert Percent(n)[..|Percent(n)| - 1] == IntToString(n);
  }

  /** An identification reason with the number shown in its badge. */
  datatype NumberedReason = NumberedReason(number: int, reason: string)

  /** A row of the other-candidates list: the name, the bar width and the figure shown. */
  datatype CandidateRow = CandidateRow(name: string, barWidth: string, confidenceText: string)

  /** A reference card: the link, its title and its description. */
  datatype ReferenceCard = ReferenceCard(href: string, title: string, description: string)

  /** What the result view shows, field by field. */
  datatype ResultPage = ResultPage(
    imageUrl: string,
    imageAlt: string,
    nameChinese: string,
    nameEnglish: string,
    formula: string,
    confidenceText: string,
    barClass: string,
    barWidth: string,
    description: string,
    stories: seq<string>,
    topics: seq<string>,
    reasons: seq<NumberedReason>,
    candidates: seq<CandidateRow>,
    references: seq<ReferenceCard>)

  /** The media type the result view always labels the stored image with. */
  const ShownMediaType: string := "image/jpeg"

  /** The result view for an analysis and the stored image payload. */
  function Render(a: MineralAnalysis, imageSrc: string): (page: ResultPage)
    ensures page.barClass == BandClass(ConfidenceBand(a.confidenceLevel))
    ensures ParsePercent(page.barWidth) == Some(a.confidenceLevel)
    ensures |page.reasons| == |a.identificationReasons|
    ensures forall i :: 0 <= i < |page.reasons| ==> page.reasons[i].number == i + 1
    ensures |page.candidates| == |a.otherCandidates|
    ensures forall i :: 0 <= i < |page.candidates| ==>
      ParsePercent(page.candidates[i].barWidth) == Some(a.otherCandidates[i].confidence)
  {
    PercentRoundTrip(a.confidenceLevel);
    forall c | c in a.otherCandidates
      ensures ParsePercent(Percent(c.confidence)) == Some(c.confidence)
    {
      PercentRoundTrip(c.confidence);
    }
    var reasons := a.identificationReasons;
    var candidates := a.otherCandidates;
    var references := a.references;
    ResultPage(
      ImageUpload.FormatDataUrl(ShownMediaType, imageSrc),
      a.nameEnglish,
      a.nameChinese,
      a.nameEnglish,
      a.chemicalFormula,
      Percent(a.confidenceLevel),
      BandClass(ConfidenceBand(a.confidenceLevel)),
      Percent(a.confidenceLevel),
      a.description,
      a.historicalStories,
      a.socialMediaTopics,
      seq(|reasons|, i requires 0 <= i < |reasons| => NumberedReason(i + 1, reasons[i])),
      seq(|candidates|, i requires 0 <= i < |candidates| =>
        CandidateRow(candidates[i].name, Percent(candidates[i].confidence), Percent(candidates[i].confidence))),
      seq(|references|, i requires 0 <= i < |references| =>
        ReferenceCard(references[i].url, references[i].title, references[i].description)))
  }

  /** Reads an analysis back off a result page. */
  function Recover(page: ResultPage): MineralAnalysis
  {
    var reasons := page.reasons;
    var candidates := page.candidates;
    var references := page.references;
    MineralAnalysis(
      page.nameChinese,
      page.nameEnglish,
      page.formula,
      ParsePercent(page.barWidth).GetOr(0),
      page.description,
      page.stories,
      page.topics,
      seq(|reasons|, i requires 0 <= i < |reasons| => reasons[i].reason),
      seq(|candidates|, i requires 0 <= i < |candidates| =>
        MineralCandidate(candidates[i].name, ParsePercent(candidates[i].barWidth).GetOr(0))),
      seq(|references|, i requires 0 <= i < |references| =>
        Reference(references[i].href, references[i].title, references[i].description)))
  }

  /**
   * The result view shows every field of the analysis unchanged: every
   * list entry, in order, with nothing filtered out.
   */
  lemma RenderRoundTrip(a: MineralAnalysis, imageSrc: string)
    ensures Recover(Render(a, imageSrc)) == a
  {
    var page := Render(a, imageSrc);
    var back := Recover(page);
    assert back.identificationReasons == a.identificationReasons;
    assert back.otherCandidates == a.otherCandidates;
    assert back.references == a.references;
  }

  /**
   * The image is shown from a data URL that always claims JPEG, whatever
   * type was uploaded; its payload is the stored one.
   */
  lemma ShownImageIsJpegLabelled(a: MineralAnalysis, imageSrc: string)
    requires ',' !in imageSrc
    ensures ImageUpload.ParseDataUrl(Render(a, imageSrc).imageUrl)
         == ImageUpload.ImageSelection(Some(imageSrc), Some(ShownMediaType))
  {
    ImageUpload.DataUrlRoundTrip(ShownMediaType, imageSrc);
  }
}
