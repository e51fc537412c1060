/**
 The receipt pipeline as it runs (receipt_pipeline/orchestrator.py): one receipt, one worker, and a world
 free to answer anything, raise at any point, or end the run while it waits.

 A database statement that raises also aborts the transaction: whatever the run has written is gone, and
 the handler's own UPDATE raises too, which the code logs and ignores. A run that is cut, because its job
 times out or its worker dies, reaches no handler at all.
 */
module Pipeline {
  import opened Wrappers
  import opened ReceiptStatus
  import opened QrCodes
  import opened Identities
  import opened OfdClient
  import BonusRules
  import BonusEngine
  import BonusTheorems

  datatype Signal =
    | QrRawDuplicate
    | TripleDuplicate
    | DateTooOld
    | CrossSellerDuplicate
    | SumMismatch
    | NoSkuMatch
    | MultipleReceiptsDetected
    | TripleSeenBefore
    | FileSeenBefore
    | DemoMode

  datatype Reason =
    | QrAlreadyUsed
    | TripleAlreadyUsed
    | PurchaseTooOld
    | CrossSeller
    | ReceiptNotFound
    | OfdUpstreamUnavailable
    | SumsDiffer
    | NothingMatched
    | TransitionNotAllowed

  /**
   How a step ends: normally, with a StepError, with a database error, with a COMMIT that took effect
   although its answer was lost, with any other exception, or not at all because the run was cut.
   */
  datatype StepResult = Done | StepError(reason: Reason) | DbError | Unseen | Crashed | Cut

  datatype MatchedItem = MatchedItem(name: string, qty: real, sku: Option<int>)

  /** The receipt columns the pipeline reads or writes. */
  datatype Row = Row(
    status: Status,
    qrRaw: Option<string>,
    fn: Option<string>,
    fd: Option<string>,
    fp: Option<string>,
    purchaseDate: Option<int>,
    totalSum: Option<int>,
    shopName: Option<string>,
    shopInn: Option<string>,
    items: seq<MatchedItem>,
    bonusAmount: int,
    signals: seq<Signal>,
    rejectionReason: Option<Reason>)

  /** Decoding one image or page: its QR texts, or an exception. */
  datatype Extraction = Texts(texts: seq<string>) | ExtractorRaises

  datatype File = Unreadable | PdfFile(pages: seq<Extraction>) | PdfRaises | ImageFile(image: Extraction)

  /** Where a run waits for something and can be cut; a cut fetch has made some of its calls. */
  datatype Point =
    | Starting
    | Collecting
    | Checking
    | Fetching(calls: nat)
    | LoadingCatalog
    | LoadingPromotions
    | Finalizing
    | Handling

  /** The UPDATE that ends a run, with its COMMIT. */
  datatype FinalWrite = Takes | Refused | TakesUnseen

  /** A check against the database; CheckRaises is a database error. */
  datatype Check = Clear | Hit | CheckRaises

  /** Everything the pipeline does not control in one run. */
  datatype World = World(
    lib: Library,
    demo: bool,
    startRaises: bool,            // the UPDATE to ocr_in_progress
    files: seq<File>,             // in position order
    legacyFile: Option<File>,
    qrRawCheck: Check,
    tripleCheck: Check,
    tooOld: bool,
    crossSellerCheck: Check,
    hashCheck: nat -> Check,      // was this attachment's file uploaded before
    cacheRaises: bool,
    cached: Option<OfdReceipt>,
    retrySetting: Option<string>,
    provider: nat -> Outcome,
    cacheWriteRaises: bool,
    catalogRaises: bool,
    matcher: nat -> Option<int>,
    promotionsRaise: bool,
    promotions: seq<BonusEngine.Promotion>,
    receiptCount: int,
    finalReadRaises: bool,
    finalWrite: FinalWrite,
    cut: Option<Point>)           // where the run is cut, if it gets there

  // ---------------------------------------------------------------- candidate collection

  function Labelled(origin: Source, texts: seq<string>): (r: seq<(Source, string)>)
    ensures |r| == |texts| && forall k :: 0 <= k < |texts| ==> r[k] == (origin, texts[k])
  {
    if texts == [] then [] else Labelled(origin, texts[..|texts| - 1]) + [(origin, texts[|texts| - 1])]
  }

  /** The texts of the first n pages, or None if decoding one of them raises. */
  function PageSources(position: nat, pages: seq<Extraction>, n: nat): Option<seq<(Source, string)>>
    requires n <= |pages|
  {
    if n == 0 then Some([])
    else
      var before := PageSources(position, pages, n - 1);
      if before.None? || pages[n - 1].ExtractorRaises? then None
      else Some(before.value + Labelled(PdfPage(position, n - 1), pages[n - 1].texts))
  }

  function FileSources(position: nat, file: File): Option<seq<(Source, string)>> {
    match file
    case Unreadable => Some([])
    case PdfRaises => None
    case PdfFile(pages) => PageSources(position, pages, |pages|)
    case ImageFile(ExtractorRaises) => None
    case ImageFile(Texts(texts)) => Some(Labelled(Attachment(position), texts))
  }

  function FilesSources(files: seq<File>, n: nat): Option<seq<(Source, string)>>
    requires n <= |files|
  {
    if n == 0 then Some([])
    else
      var before, last := FilesSources(files, n - 1), FileSources(n - 1, files[n - 1]);
      if before.None? || last.None? then None else Some(before.value + last.value)
  }

  function ScannedSources(qrRaw: Option<string>): seq<(Source, string)> {
    if Truthy(qrRaw) then [(ScannedQr, qrRaw.value)] else []
  }

  /** A receipt from before attachments: its single file, read as an image. */
  function LegacySources(qrRaw: Option<string>, world: World): Option<seq<(Source, string)>> {
    if world.files == [] && !Truthy(qrRaw) && world.legacyFile.Some? then
      (match world.legacyFile.value
       case ImageFile(Texts(texts)) => Some(Labelled(LegacyFile, texts))
       case ImageFile(ExtractorRaises) => None
       case _ => Some([]))
    else Some([])
  }

  /** Every text of the submission, scanned code first, or None if collection raises. */
  function AllSources(qrRaw: Option<string>, world: World): Option<seq<(Source, string)>> {
    var files, legacy := FilesSources(world.files, |world.files|), LegacySources(qrRaw, world);
    if files.None? || legacy.None? then None else Some(ScannedSources(qrRaw) + files.value + legacy.value)
  }

  // ---------------------------------------------------------------- what is collected

  /** The texts with one label, in their order. */
  function TextsOf(sources: seq<(Source, string)>, mark: Source): seq<string> {
    if sources == [] then []
    else
      var last := sources[|sources| - 1];
      TextsOf(sources[..|sources| - 1], mark) + if last.0 == mark then [last.1] else []
  }

  /** Reading the file raises. */
  predicate FileRaises(file: File) {
    || file.PdfRaises?
    || (file.ImageFile? && file.image.ExtractorRaises?)
    || (file.PdfFile? && exists p :: 0 <= p < |file.pages| && file.pages[p].ExtractorRaises?)
  }

  /** The image's texts under the attachment, each page's texts under that page, and nothing else under either. */
  ghost predicate ListsFile(sources: seq<(Source, string)>, position: nat, file: File) {
    && TextsOf(sources, Attachment(position)) == (if file.ImageFile? && file.image.Texts? then file.image.texts else [])
    && forall p: nat :: TextsOf(sources, PdfPage(position, p))
         == if file.PdfFile? && p < |file.pages| && file.pages[p].Texts? then file.pages[p].texts else []
  }

  ghost predicate ListsNoFile(sources: seq<(Source, string)>, position: nat) {
    TextsOf(sources, Attachment(position)) == [] && forall p: nat :: TextsOf(sources, PdfPage(position, p)) == []
  }

  /** The legacy file counts only for a receipt with nothing else. */
  predicate UsesLegacy(qrRaw: Option<string>, world: World) {
    world.files == [] && (qrRaw == None || qrRaw == Some("")) && world.legacyFile.Some?
  }

  predicate LegacyRaises(qrRaw: Option<string>, world: World) {
    UsesLegacy(qrRaw, world) && world.legacyFile.value.ImageFile? && world.legacyFile.value.image.ExtractorRaises?
  }

  /** Everything there is to read, label by label, with nothing left out, added, repeated or reordered. */
  ghost predicate ListsAll(sources: seq<(Source, string)>, qrRaw: Option<string>, world: World) {
    && TextsOf(sources, ScannedQr) == (if qrRaw.Some? && qrRaw.value != "" then [qrRaw.value] else [])
    && (forall k :: 0 <= k < |world.files| ==> ListsFile(sources, k, world.files[k]))
    && (forall k :: k >= |world.files| ==> ListsNoFile(sources, k))
    && TextsOf(sources, LegacyFile)
       == if UsesLegacy(qrRaw, world) && world.legacyFile.value.ImageFile? && world.legacyFile.value.image.Texts?
          then world.legacyFile.value.image.texts else []
  }

  /** The scanned code comes first, then files by position, and the pages of a file by number. */
  predicate NotAfter(a: Source, b: Source) {
    match a
    case ScannedQr => true
    case LegacyFile => b.LegacyFile?
    case Attachment(k) => (b.Attachment? && k <= b.position) || (b.PdfPage? && k < b.position) || b.LegacyFile?
    case PdfPage(k, p) =>
      || (b.Attachment? && k < b.position)
      || (b.PdfPage? && (k < b.position || (k == b.position && p <= b.page)))
      || b.LegacyFile?
  }

  predicate InOrder(sources: seq<(Source, string)>) {
    forall i, j :: 0 <= i < j < |sources| ==> NotAfter(sources[i].0, sources[j].0)
  }

  lemma {:induction false} TextsConcat(a: seq<(Source, string)>, b: seq<(Source, string)>, mark: Source)
    ensures TextsOf(a + b, mark) == TextsOf(a, mark) + TextsOf(b, mark)
  {
    if b == [] {
      assert a + b == a;
    } else {
      TextsConcat(a, b[..|b| - 1], mark);
      assert (a + b)[..|a + b| - 1] == a + b[..|b| - 1];
    }
  }

  lemma {:induction false} TextsOfLabelled(origin: Source, texts: seq<string>, mark: Source)
    ensures TextsOf(Labelled(origin, texts), mark) == if origin == mark then texts else []
  {
    hide TextsOf;
    if texts == [] {
      NoTexts(mark);
    } else {
      var front, last := texts[..|texts| - 1], texts[|texts| - 1];
      TextsOfLabelled(origin, front, mark);
      TextsAppend(Labelled(origin, front), (origin, last), mark);
      assert front + [last] == texts;
    }
  }

  lemma TextsAppend(sources: seq<(Source, string)>, s: (Source, string), mark: Source)
    ensures TextsOf(sources + [s], mark) == TextsOf(sources, mark) + if s.0 == mark then [s.1] else []
  {
    assert (sources + [s])[..|sources|] == sources;
  }

  /** A text stands under a label iff the pair is among the sources. */
  lemma {:induction false} InTextsOf(sources: seq<(Source, string)>, mark: Source, text: string)
    ensures text in TextsOf(sources, mark) <==> (mark, text) in sources
  {
    if sources != [] {
      var front, last := sources[..|sources| - 1], sources[|sources| - 1];
      InTextsOf(front, mark, text);
      assert sources == front + [last];
    }
  }

  lemma NoTexts(mark: Source)
    ensures TextsOf([], mark) == []
  {
  }

  lemma {:induction false} PagesListed(position: nat, pages: seq<Extraction>, n: nat, mark: Source)
    requires n <= |pages| && PageSources(position, pages, n).Some?
    ensures
      var texts := TextsOf(PageSources(position, pages, n).value, mark);
      if mark.PdfPage? && mark.position == position && mark.page < n
      then pages[mark.page].Texts? && texts == pages[mark.page].texts else texts == []
  {
    hide TextsOf, Labelled;
    if n == 0 {
      NoTexts(mark);
    } else {
      PagesListed(position, pages, n - 1, mark);
      var last := Labelled(PdfPage(position, n - 1), pages[n - 1].texts);
      TextsConcat(PageSources(position, pages, n - 1).value, last, mark);
      TextsOfLabelled(PdfPage(position, n - 1), pages[n - 1].texts, mark);
    }
  }

  lemma {:induction false} PagesRaiseIff(position: nat, pages: seq<Extraction>, n: nat)
    requires n <= |pages|
    ensures PageSources(position, pages, n).None? <==> exists p :: 0 <= p < n && pages[p].ExtractorRaises?
  {
    if n > 0 {
      PagesRaiseIff(position, pages, n - 1);
    }
  }

  lemma FileRaisesIff(position: nat, file: File)
    ensures FileSources(position, file).None? <==> FileRaises(file)
  {
    if file.PdfFile? {
      PagesRaiseIff(position, file.pages, |file.pages|);
    }
  }

  /** One file puts its texts under its own labels only. */
  lemma FileListed(position: nat, file: File, mark: Source)
    requires FileSources(position, file).Some?
    ensures
      var texts := TextsOf(FileSources(position, file).value, mark);
      texts == if mark == Attachment(position) && file.ImageFile? && file.image.Texts? then file.image.texts
               else if mark.PdfPage? && mark.position == position && file.PdfFile? && mark.page < |file.pages|
                       && file.pages[mark.page].Texts? then file.pages[mark.page].texts
               else []
  {
    match file
    case PdfFile(pages) => PagesListed(position, pages, |pages|, mark);
    case ImageFile(Texts(texts)) => TextsOfLabelled(Attachment(position), texts, mark);
    case _ =>
  }

  lemma FileLists(position: nat, file: File)
    requires FileSources(position, file).Some?
    ensures ListsFile(FileSources(position, file).value, position, file)
  {
    hide FileSources, TextsOf;
    FileListed(position, file, Attachment(position));
    forall p: nat
      ensures TextsOf(FileSources(position, file).value, PdfPage(position, p))
           == if file.PdfFile? && p < |file.pages| && file.pages[p].Texts? then file.pages[p].texts else []
    {
      FileListed(position, file, PdfPage(position, p));
    }
  }

  lemma {:induction false} FilesRaiseIff(files: seq<File>, n: nat)
    requires n <= |files|
    ensures FilesSources(files, n).None? <==> exists k :: 0 <= k < n && FileRaises(files[k])
  {
    hide FileSources, FileRaises;
    if n > 0 {
      FilesRaiseIff(files, n - 1);
      FileRaisesIff(n - 1, files[n - 1]);
    }
  }

  /** The texts under a label come from the one file the label names. */
  lemma {:induction false} FilesListed(files: seq<File>, n: nat, mark: Source)
    requires n <= |files| && FilesSources(files, n).Some?
    ensures
      var texts := TextsOf(FilesSources(files, n).value, mark);
      if (mark.Attachment? || mark.PdfPage?) && mark.position < n
      then && FileSources(mark.position, files[mark.position]).Some?
           && texts == TextsOf(FileSources(mark.position, files[mark.position]).value, mark)
      else texts == []
  {
    if n > 0 {
      hide FileSources, TextsOf;
      FilesListed(files, n - 1, mark);
      var before, last := FilesSources(files, n - 1).value, FileSources(n - 1, files[n - 1]).value;
      TextsConcat(before, last, mark);
      FileListed(n - 1, files[n - 1], mark);
    }
  }

  /** Where the sources of the first n files may stand. */
  predicate Below(sources: seq<(Source, string)>, n: nat) {
    forall i :: 0 <= i < |sources| ==> (sources[i].0.Attachment? || sources[i].0.PdfPage?) && sources[i].0.position < n
  }

  lemma {:induction false} PagesOrdered(position: nat, pages: seq<Extraction>, n: nat)
    requires n <= |pages| && PageSources(position, pages, n).Some?
    ensures
      var r := PageSources(position, pages, n).value;
      && InOrder(r)
      && forall i :: 0 <= i < |r| ==> r[i].0.PdfPage? && r[i].0.position == position && r[i].0.page < n
  {
    if n > 0 {
      PagesOrdered(position, pages, n - 1);
    }
  }

  lemma FileOrdered(position: nat, file: File)
    requires FileSources(position, file).Some?
    ensures
      var r := FileSources(position, file).value;
      InOrder(r) && Below(r, position + 1) && forall i :: 0 <= i < |r| ==> r[i].0.position == position
  {
    if file.PdfFile? {
      PagesOrdered(position, file.pages, |file.pages|);
    }
  }

  lemma {:induction false} FilesOrdered(files: seq<File>, n: nat)
    requires n <= |files| && FilesSources(files, n).Some?
    ensures InOrder(FilesSources(files, n).value) && Below(FilesSources(files, n).value, n)
  {
    hide FileSources;
    if n > 0 {
      FilesOrdered(files, n - 1);
      FileOrdered(n - 1, files[n - 1]);
    }
  }

  lemma LegacyListed(qrRaw: Option<string>, world: World, mark: Source)
    requires LegacySources(qrRaw, world).Some?
    ensures TextsOf(LegacySources(qrRaw, world).value, mark)
         == if mark.LegacyFile? && UsesLegacy(qrRaw, world) && world.legacyFile.value.ImageFile?
               && world.legacyFile.value.image.Texts? then world.legacyFile.value.image.texts else []
  {
    if UsesLegacy(qrRaw, world) && world.legacyFile.value.ImageFile? && world.legacyFile.value.image.Texts? {
      TextsOfLabelled(LegacyFile, world.legacyFile.value.image.texts, mark);
    }
  }

  lemma TextsOfAll(qrRaw: Option<string>, world: World, mark: Source)
    requires AllSources(qrRaw, world).Some?
    ensures
      var files, legacy := FilesSources(world.files, |world.files|), LegacySources(qrRaw, world);
      && files.Some? && legacy.Some?
      && TextsOf(AllSources(qrRaw, world).value, mark)
         == (if mark.ScannedQr? && qrRaw.Some? && qrRaw.value != "" then [qrRaw.value] else [])
            + TextsOf(files.value, mark) + TextsOf(legacy.value, mark)
  {
    hide FilesSources, LegacySources, TextsOf;
    var scanned := ScannedSources(qrRaw);
    var files, legacy := FilesSources(world.files, |world.files|).value, LegacySources(qrRaw, world).value;
    TextsConcat(scanned, files, mark);
    TextsConcat(scanned + files, legacy, mark);
    NoTexts(mark);
    if scanned != [] {
      TextsAppend([], scanned[0], mark);
      assert [] + [scanned[0]] == scanned;
    }
  }

  /** What is collected is everything there is to read, in order. */
  lemma CollectsAll(qrRaw: Option<string>, world: World)
    requires AllSources(qrRaw, world).Some?
    ensures ListsAll(AllSources(qrRaw, world).value, qrRaw, world) && InOrder(AllSources(qrRaw, world).value)
  {
    hide AllSources, FilesSources, LegacySources, FileSources, TextsOf;
    var all := AllSources(qrRaw, world).value;
    forall mark: Source ensures TextsOf(all, mark) == LabelTexts(qrRaw, world, mark) {
      TextsUnder(qrRaw, world, mark);
    }
    AllOrdered(qrRaw, world);
  }

  /** The texts that belong under a label. */
  function LabelTexts(qrRaw: Option<string>, world: World, mark: Source): seq<string> {
    match mark
    case ScannedQr => if qrRaw.Some? && qrRaw.value != "" then [qrRaw.value] else []
    case Attachment(k) =>
      if k < |world.files| && world.files[k].ImageFile? && world.files[k].image.Texts? then world.files[k].image.texts
      else []
    case PdfPage(k, p) =>
      if k < |world.files| && world.files[k].PdfFile? && p < |world.files[k].pages| && world.files[k].pages[p].Texts?
      then world.files[k].pages[p].texts else []
    case LegacyFile =>
      if UsesLegacy(qrRaw, world) && world.legacyFile.value.ImageFile? && world.legacyFile.value.image.Texts?
      then world.legacyFile.value.image.texts else []
  }

  lemma TextsUnder(qrRaw: Option<string>, world: World, mark: Source)
    requires AllSources(qrRaw, world).Some?
    ensures TextsOf(AllSources(qrRaw, world).value, mark) == LabelTexts(qrRaw, world, mark)
  {
    hide AllSources, FilesSources, LegacySources, FileSources, TextsOf;
    TextsOfAll(qrRaw, world, mark);
    LegacyListed(qrRaw, world, mark);
    FilesListed(world.files, |world.files|, mark);
    if (mark.Attachment? || mark.PdfPage?) && mark.position < |world.files| {
      FileListed(mark.position, world.files[mark.position], mark);
    }
  }

  lemma AllOrdered(qrRaw: Option<string>, world: World)
    requires AllSources(qrRaw, world).Some?
    ensures InOrder(AllSources(qrRaw, world).value)
  {
    hide FilesSources;
    FilesOrdered(world.files, |world.files|);
  }

  /** Collection raises exactly when some file it reads does. */
  lemma CollectionRaisesIff(qrRaw: Option<string>, world: World)
    ensures AllSources(qrRaw, world).None? <==>
      || (exists k :: 0 <= k < |world.files| && FileRaises(world.files[k]))
      || LegacyRaises(qrRaw, world)
  {
    hide FilesSources;
    FilesRaiseIff(world.files, |world.files|);
  }

  /** The text is somewhere to be read: scanned, in an image, on a page, or in the legacy file. */
  predicate Offers(qrRaw: Option<string>, world: World, text: string) {
    || (qrRaw == Some(text) && text != "")
    || (exists k :: 0 <= k < |world.files| && world.files[k].ImageFile? && world.files[k].image.Texts?
                    && text in world.files[k].image.texts)
    || (exists k, p :: 0 <= k < |world.files| && world.files[k].PdfFile? && 0 <= p < |world.files[k].pages|
                       && world.files[k].pages[p].Texts? && text in world.files[k].pages[p].texts)
    || (UsesLegacy(qrRaw, world) && world.legacyFile.value.ImageFile? && world.legacyFile.value.image.Texts?
        && text in world.legacyFile.value.image.texts)
  }

  lemma LabelledIsOffered(qrRaw: Option<string>, world: World, text: string)
    ensures Offers(qrRaw, world, text) <==> exists mark :: text in LabelTexts(qrRaw, world, mark)
  {
    hide UsesLegacy;
    if Offers(qrRaw, world, text) {
      if qrRaw == Some(text) && text != "" {
        assert text in LabelTexts(qrRaw, world, ScannedQr);
      } else if k :| 0 <= k < |world.files| && world.files[k].ImageFile? && world.files[k].image.Texts?
                     && text in world.files[k].image.texts {
        assert text in LabelTexts(qrRaw, world, Attachment(k));
      } else if k, p :| 0 <= k < |world.files| && world.files[k].PdfFile? && 0 <= p < |world.files[k].pages|
                        && world.files[k].pages[p].Texts? && text in world.files[k].pages[p].texts {
        assert text in LabelTexts(qrRaw, world, PdfPage(k, p));
      } else {
        assert text in LabelTexts(qrRaw, world, LegacyFile);
      }
    }
  }

  /** The sources carry exactly the texts that are there to be read. */
  lemma SourcesAreOffered(qrRaw: Option<string>, world: World, text: string)
    requires AllSources(qrRaw, world).Some?
    ensures Offers(qrRaw, world, text) <==>
      exists k :: 0 <= k < |AllSources(qrRaw, world).value| && AllSources(qrRaw, world).value[k].1 == text
  {
    hide AllSources, Offers, LabelTexts;
    var all := AllSources(qrRaw, world).value;
    LabelledIsOffered(qrRaw, world, text);
    if mark :| text in LabelTexts(qrRaw, world, mark) {
      TextsUnder(qrRaw, world, mark);
      InTextsOf(all, mark, text);
      var k :| 0 <= k < |all| && all[k] == (mark, text);
    }
    if k :| 0 <= k < |all| && all[k].1 == text {
      InTextsOf(all, all[k].0, text);
      TextsUnder(qrRaw, world, all[k].0);
      assert text in LabelTexts(qrRaw, world, all[k].0);
    }
  }

  // ---------------------------------------------------------------- the collecting loops

  method CollectFile(position: nat, file: File) returns (sources: seq<(Source, string)>, raised: bool)
    ensures raised <==> FileSources(position, file).None?
    ensures !raised ==> sources == FileSources(position, file).value
    ensures raised <==> FileRaises(file)
    ensures !raised ==> ListsFile(sources, position, file) && InOrder(sources)
  {
    hide ListsFile, InOrder, FileRaises, Labelled;
    FileRaisesIff(position, file);
    if !FileRaises(file) {
      FileLists(position, file);
      FileOrdered(position, file);
    }
    sources, raised := [], false;
    match file {
      case Unreadable =>
      case PdfRaises => raised := true;
      case ImageFile(image) =>
        if image.ExtractorRaises? {
          raised := true;
        } else {
          sources := Labelled(Attachment(position), image.texts);
        }
      case PdfFile(pages) =>
        for page := 0 to |pages|
          invariant PageSources(position, pages, page) == Some(sources)
        {
          if pages[page].ExtractorRaises? {
            PagesStayRaised(position, pages, page + 1, |pages|);
            return [], true;
          }
          sources := sources + Labelled(PdfPage(position, page), pages[page].texts);
        }
    }
  }

  lemma {:induction false} PagesStayRaised(position: nat, pages: seq<Extraction>, k: nat, n: nat)
    requires k <= n <= |pages| && PageSources(position, pages, k).None?
    ensures PageSources(position, pages, n).None?
  {
    if k < n {
      PagesStayRaised(position, pages, k, n - 1);
    }
  }

  lemma {:induction false} FilesStayRaised(files: seq<File>, k: nat, n: nat)
    requires k <= n <= |files| && FilesSources(files, k).None?
    ensures FilesSources(files, n).None?
  {
    if k < n {
      FilesStayRaised(files, k, n - 1);
    }
  }

  method CollectSources(qrRaw: Option<string>, world: World) returns (sources: seq<(Source, string)>, raised: bool)
    ensures raised <==> AllSources(qrRaw, world).None?
    ensures !raised ==> sources == AllSources(qrRaw, world).value
    ensures raised <==>
      || (exists k :: 0 <= k < |world.files| && FileRaises(world.files[k]))
      || LegacyRaises(qrRaw, world)
    ensures !raised ==> ListsAll(sources, qrRaw, world) && InOrder(sources)
  {
    hide FileSources, FileRaises, ListsAll, InOrder, ListsFile;
    CollectionRaisesIff(qrRaw, world);
    if AllSources(qrRaw, world).Some? {
      CollectsAll(qrRaw, world);
    }
    sources := [];
    if Truthy(qrRaw) {
      sources := [(ScannedQr, qrRaw.value)];
    }
    ghost var fromFiles: seq<(Source, string)> := [];
    for position := 0 to |world.files|
      invariant FilesSources(world.files, position) == Some(fromFiles)
      invariant sources == ScannedSources(qrRaw) + fromFiles
    {
      var more, failed := CollectFile(position, world.files[position]);
      if failed {
        FilesStayRaised(world.files, position + 1, |world.files|);
        return [], true;
      }
      sources := sources + more;
      fromFiles := fromFiles + more;
    }
    if world.files == [] && !Truthy(qrRaw) && world.legacyFile.Some? && world.legacyFile.value.ImageFile? {
      if world.legacyFile.value.image.ExtractorRaises? {
        return [], true;
      }
      sources := sources + Labelled(LegacyFile, world.legacyFile.value.image.texts);
    }
    return sources, false;
  }

  // ---------------------------------------------------------------- the run

  /** The identity the stored columns stand for. */
  function StoredIdentity(row: Row): Option<FiscalIdentity> {
    Normalize(row.fn, row.fd, row.fp)
  }

  predicate SameTriple(a: Row, b: Row) {
    a.fn == b.fn && a.fd == b.fd && a.fp == b.fp
  }

  /** The parsed triple verbatim, or the old one if nothing was parsed. */
  predicate TripleStored(parsed: Option<ParsedQr>, before: Row, after: Row) {
    if parsed.Some? then
      after.fn == Some(parsed.value.fn) && after.fd == Some(parsed.value.fd) && after.fp == Some(parsed.value.fp)
    else SameTriple(before, after)
  }

  /** Further apart than one kopeck and than one percent of the OFD sum. */
  predicate SumsDisagree(qrSum: int, ofdSum: int) {
    var apart := if qrSum < ofdSum then ofdSum - qrSum else qrSum - ofdSum;
    apart > 1 && 100 * apart > ofdSum
  }

  /** The sums agree within one percent of the OFD sum, rounded down, and within one kopeck in any case. */
  lemma SumsAgreeIff(qrSum: int, ofdSum: int)
    ensures !SumsDisagree(qrSum, ofdSum) <==>
      var tolerance := if ofdSum / 100 > 1 then ofdSum / 100 else 1;
      ofdSum - tolerance <= qrSum <= ofdSum + tolerance
  {
  }

  /** Every check of a parsed QR comes back clear. */
  predicate NothingSuspicious(world: World) {
    world.qrRawCheck.Clear? && world.tripleCheck.Clear? && !world.tooOld && world.crossSellerCheck.Clear?
  }

  /** The first answer among n file checks that is not clear, if any. */
  function FirstUnclear(checks: nat -> Check, n: nat): (c: Check)
    ensures c.Clear? <==> forall k :: 0 <= k < n ==> checks(k).Clear?
  {
    if n == 0 then Clear
    else
      var c := FirstUnclear(checks, n - 1);
      if c.Clear? then checks(n - 1) else c
  }

  method CheckFiles(checks: nat -> Check, n: nat) returns (c: Check)
    ensures c == FirstUnclear(checks, n)
    ensures !c.Clear? ==> exists k :: 0 <= k < n && checks(k) == c && forall j :: 0 <= j < k ==> checks(j).Clear?
  {
    for k := 0 to n
      invariant FirstUnclear(checks, k).Clear?
    {
      if !checks(k).Clear? {
        UnclearStays(checks, k + 1, n);
        return checks(k);
      }
    }
    return Clear;
  }

  lemma {:induction false} UnclearStays(checks: nat -> Check, k: nat, n: nat)
    requires k <= n && !FirstUnclear(checks, k).Clear?
    ensures FirstUnclear(checks, n) == FirstUnclear(checks, k)
  {
    if k < n {
      UnclearStays(checks, k, n - 1);
    }
  }

  /** The signal each step error adds to the receipt. */
  function SignalsOf(r: StepResult): seq<Signal> {
    match r
    case StepError(QrAlreadyUsed) => [QrRawDuplicate]
    case StepError(TripleAlreadyUsed) => [TripleDuplicate]
    case StepError(PurchaseTooOld) => [DateTooOld]
    case StepError(CrossSeller) => [CrossSellerDuplicate]
    case StepError(SumsDiffer) => [SumMismatch]
    case StepError(NothingMatched) => [NoSkuMatch]
    case _ => []
  }

  /** The matched items as the bonus engine sees them. */
  function BonusItems(items: seq<MatchedItem>): (r: seq<BonusRules.Item>)
    ensures |r| == |items| && forall k :: 0 <= k < |items| ==> r[k] == BonusRules.Item(items[k].qty, items[k].sku)
  {
    if items == [] then []
    else BonusItems(items[..|items| - 1]) + [BonusRules.Item(items[|items| - 1].qty, items[|items| - 1].sku)]
  }

  /** The suggested bonus is the engine's declarative result for these items. */
  ghost predicate Suggested(items: seq<MatchedItem>, world: World, bonus: int) {
    exists r ::
      BonusTheorems.Result(world.promotions, BonusRules.Context(BonusItems(items), world.receiptCount), r)
      && r.totalAmount == bonus
  }

  // ---------------------------------------------------------------- what full mode comes to

  /** The first check of a parsed QR that does not come back clear decides. */
  function EarlyResult(world: World): StepResult {
    if world.cut == Some(Checking) then Cut
    else
      match world.qrRawCheck
      case CheckRaises => DbError
      case Hit => StepError(QrAlreadyUsed)
      case Clear =>
        match world.tripleCheck
        case CheckRaises => DbError
        case Hit => StepError(TripleAlreadyUsed)
        case Clear =>
          if world.tooOld then StepError(PurchaseTooOld)
          else
            match world.crossSellerCheck
            case CheckRaises => DbError
            case Hit => StepError(CrossSeller)
            case Clear => Done
  }

  predicate CutFetching(world: World) {
    world.cut.Some? && world.cut.value.Fetching?
  }

  /** How the OFD data of a parsed QR is obtained, and the data. */
  function FetchResult(world: World): (StepResult, Option<OfdReceipt>) {
    if CutFetching(world) then (Cut, None)
    else if world.cacheRaises then (Crashed, None)
    else if world.cached.Some? then (Done, world.cached)
    else
      match Fetch(world.provider, RetryConfig(world.retrySetting).0).result
      case Failure(NotFoundInOfd) => (StepError(ReceiptNotFound), None)
      case Failure(UpstreamUnavailable) => (StepError(OfdUpstreamUnavailable), None)
      case Success(receipt) => if world.cacheWriteRaises then (Crashed, None) else (Done, Some(receipt))
  }

  /** The items of the OFD receipt, each with its own match. */
  function Match(receipt: OfdReceipt, matcher: nat -> Option<int>, n: nat): (r: seq<MatchedItem>)
    requires n <= |receipt.items|
    ensures |r| == n
    ensures forall k :: 0 <= k < n ==> r[k] == MatchedItem(receipt.items[k].0, receipt.items[k].1, matcher(k))
  {
    if n == 0 then []
    else
      Match(receipt, matcher, n - 1)
      + [MatchedItem(receipt.items[n - 1].0, receipt.items[n - 1].1, matcher(n - 1))]
  }

  predicate NothingFits(items: seq<MatchedItem>) {
    items != [] && forall k :: 0 <= k < |items| ==> items[k].sku.None?
  }

  /** The result of a finaliser's write. */
  function WriteResult(world: World): StepResult {
    match world.finalWrite
    case Takes => Done
    case Refused => DbError
    case TakesUnseen => Unseen
  }

  /** The result of full mode after the OFD data, if any, has been checked against the QR. */
  function LateResult(world: World, receipt: Option<OfdReceipt>): StepResult {
    if world.cut == Some(LoadingCatalog) then Cut
    else if world.catalogRaises then DbError
    else if receipt.Some? && NothingFits(Match(receipt.value, world.matcher, |receipt.value.items|)) then
      StepError(NothingMatched)
    else if world.cut == Some(LoadingPromotions) then Cut
    else if world.promotionsRaise then DbError
    else if world.cut == Some(Finalizing) then Cut
    else if world.finalReadRaises then DbError
    else WriteResult(world)
  }

  /** The OFD data a parsed QR ends up with. */
  function OfdOf(world: World, parsed: Option<ParsedQr>): Option<OfdReceipt> {
    if parsed.Some? then FetchResult(world).1 else None
  }

  /** The checks of a parsed QR, the fetch of its OFD data and the comparison of the two. */
  function QrResult(world: World, parsed: Option<ParsedQr>): StepResult {
    if parsed.None? then Done
    else if EarlyResult(world) != Done then EarlyResult(world)
    else if FetchResult(world).0 != Done then FetchResult(world).0
    else
      var receipt := FetchResult(world).1;
      if receipt.Some? && SumsDisagree(parsed.value.totalSumKop, receipt.value.totalSum) then StepError(SumsDiffer)
      else Done
  }

  function FullResult(world: World, parsed: Option<ParsedQr>): StepResult {
    if QrResult(world, parsed) != Done then QrResult(world, parsed) else LateResult(world, OfdOf(world, parsed))
  }

  /** The row has been written and committed, whether or not the run knows. */
  predicate Lands(r: StepResult) {
    r.Done? || r.Unseen?
  }

  /**
   Full mode writes its result exactly when nothing is suspicious, everything fits, the database holds and
   the run is not cut on the way.
   */
  lemma CompletesIff(world: World, parsed: Option<ParsedQr>)
    ensures Lands(FullResult(world, parsed)) <==>
      && !world.catalogRaises && !world.promotionsRaise && !world.finalReadRaises && !world.finalWrite.Refused?
      && (world.cut.Some? ==> world.cut.value !in {LoadingCatalog, LoadingPromotions, Finalizing})
      && (parsed.Some? ==>
            && world.cut != Some(Checking) && !CutFetching(world)
            && NothingSuspicious(world) && FetchResult(world).0.Done? && OfdOf(world, parsed).Some?
            && var receipt := OfdOf(world, parsed).value;
               && !SumsDisagree(parsed.value.totalSumKop, receipt.totalSum)
               && (receipt.items == [] || exists k :: 0 <= k < |receipt.items| && world.matcher(k).Some?))
  {
    hide Fetch, RetryConfig, SumsDisagree;
    if parsed.Some? && OfdOf(world, parsed).Some? {
      var receipt := OfdOf(world, parsed).value;
      var items := Match(receipt, world.matcher, |receipt.items|);
      assert forall k :: 0 <= k < |items| ==> items[k].sku == world.matcher(k);
    }
  }

  // ---------------------------------------------------------------- which runs leave a result

  /** Looking up earlier receipts with the same triple or files raises. */
  predicate HistoryRaises(world: World, parsed: Option<ParsedQr>) {
    || (parsed.Some? && world.tripleCheck.CheckRaises?)
    || FirstUnclear(world.hashCheck, |world.files|).CheckRaises?
  }

  /** One signal for a triple used before, one for a file uploaded before. */
  function HistorySignals(world: World, parsed: Option<ParsedQr>): seq<Signal> {
    (if parsed.Some? && world.tripleCheck.Hit? then [TripleSeenBefore] else [])
    + if FirstUnclear(world.hashCheck, |world.files|).Hit? then [FileSeenBefore] else []
  }

  function MultipleResult(world: World): StepResult {
    if world.cut == Some(Finalizing) then Cut else WriteResult(world)
  }

  function DemoResult(world: World, parsed: Option<ParsedQr>): StepResult {
    if world.cut == Some(Checking) && (parsed.Some? || world.files != []) then Cut
    else if HistoryRaises(world, parsed) then DbError
    else MultipleResult(world)
  }

  /** The parsed code a run works with: that of the single identity, if there is one. */
  function ParsedOf(agg: Aggregation, lib: Library): Option<ParsedQr> {
    if agg.Primary().None? then None
    else
      var raw := RawFor(agg.candidates, agg.Primary().value);
      if raw.None? then None
      else
        match ParseQr(raw.value, lib)
        case Success(p) => Some(p)
        case Failure(_) => None
  }

  /** Candidate collection comes to its end. */
  predicate Collects(qrRaw: Option<string>, world: World) {
    var all := AllSources(qrRaw, world);
    all.Some? && forall k :: 0 <= k < |all.value| ==> !Overflows(all.value[k].1, world.lib)
  }

  /** What candidate collection finds. */
  function Collected(qrRaw: Option<string>, world: World): Option<Aggregation> {
    if Collects(qrRaw, world) then Some(Aggregate(AllSources(qrRaw, world).value, world.lib)) else None
  }

  /** The run waits for a file to be read. */
  predicate ReadsFiles(qrRaw: Option<string>, world: World) {
    world.files != [] || (!Truthy(qrRaw) && world.legacyFile.Some?)
  }

  /** Among everything there is to read, this identity and no other occurs. */
  ghost predicate OffersOnly(qrRaw: Option<string>, world: World, id: FiscalIdentity) {
    && (exists text :: Offers(qrRaw, world, text) && IdentityOf(text, world.lib) == Some(id))
    && (forall text :: Offers(qrRaw, world, text) && IdentityOf(text, world.lib).Some? ==>
          IdentityOf(text, world.lib) == Some(id))
  }

  lemma YieldedIffOffered(qrRaw: Option<string>, world: World, id: FiscalIdentity)
    requires AllSources(qrRaw, world).Some?
    ensures Yields(AllSources(qrRaw, world).value, world.lib, id) <==>
      exists text :: Offers(qrRaw, world, text) && IdentityOf(text, world.lib) == Some(id)
  {
    hide AllSources, Offers, IdentityOf;
    var all := AllSources(qrRaw, world).value;
    if k :| 0 <= k < |all| && IdentityOf(all[k].1, world.lib) == Some(id) {
      SourcesAreOffered(qrRaw, world, all[k].1);
    }
    if text :| Offers(qrRaw, world, text) && IdentityOf(text, world.lib) == Some(id) {
      SourcesAreOffered(qrRaw, world, text);
      var k :| 0 <= k < |all| && all[k].1 == text;
    }
  }

  /** Collection finds the single identity exactly when there is just one to be read. */
  lemma SingleIdentityIff(qrRaw: Option<string>, world: World, id: FiscalIdentity)
    requires Collected(qrRaw, world).Some?
    ensures Collected(qrRaw, world).value.Primary() == Some(id) <==> OffersOnly(qrRaw, world, id)
  {
    hide AllSources, Offers, IdentityOf, Aggregate, FirstSeenOrder, Yields;
    var agg := Collected(qrRaw, world).value;
    AggregateIsRight(AllSources(qrRaw, world).value, world.lib);
    forall other ensures other in agg.unique <==>
      exists text :: Offers(qrRaw, world, text) && IdentityOf(text, world.lib) == Some(other)
    {
      YieldedIffOffered(qrRaw, world, other);
    }
    assert |agg.unique| > 1 ==> agg.unique[0] != agg.unique[1];
    if OffersOnly(qrRaw, world, id) {
      assert id in agg.unique;
      forall k | 0 <= k < |agg.unique| ensures agg.unique[k] == id {
        assert agg.unique[k] in agg.unique;
      }
    }
    if agg.Primary() == Some(id) {
      assert agg.unique == [id] && id in agg.unique;
    }
  }

  /** Two texts there are to read stand for different identities. */
  ghost predicate OffersTwo(qrRaw: Option<string>, world: World) {
    exists a, b :: Offers(qrRaw, world, a) && Offers(qrRaw, world, b)
      && IdentityOf(a, world.lib).Some? && IdentityOf(b, world.lib).Some?
      && IdentityOf(a, world.lib) != IdentityOf(b, world.lib)
  }

  ghost predicate OffersSome(qrRaw: Option<string>, world: World) {
    exists a :: Offers(qrRaw, world, a) && IdentityOf(a, world.lib).Some?
  }

  lemma OfferedIsUnique(qrRaw: Option<string>, world: World, text: string)
    requires Collected(qrRaw, world).Some? && Offers(qrRaw, world, text) && IdentityOf(text, world.lib).Some?
    ensures IdentityOf(text, world.lib).value in Collected(qrRaw, world).value.unique
  {
    hide AllSources, Offers, IdentityOf, Aggregate, FirstSeenOrder, Yields;
    AggregateIsRight(AllSources(qrRaw, world).value, world.lib);
    YieldedIffOffered(qrRaw, world, IdentityOf(text, world.lib).value);
  }

  lemma UniqueIsOffered(qrRaw: Option<string>, world: World, id: FiscalIdentity) returns (text: string)
    requires Collected(qrRaw, world).Some? && id in Collected(qrRaw, world).value.unique
    ensures Offers(qrRaw, world, text) && IdentityOf(text, world.lib) == Some(id)
  {
    hide AllSources, Offers, IdentityOf, Aggregate, FirstSeenOrder, Yields;
    AggregateIsRight(AllSources(qrRaw, world).value, world.lib);
    YieldedIffOffered(qrRaw, world, id);
    text :| Offers(qrRaw, world, text) && IdentityOf(text, world.lib) == Some(id);
  }

  lemma CollectedDistinct(qrRaw: Option<string>, world: World)
    requires Collected(qrRaw, world).Some?
    ensures
      var unique := Collected(qrRaw, world).value.unique;
      forall i, j :: 0 <= i < j < |unique| ==> unique[i] != unique[j]
  {
    hide AllSources, IdentityOf, Aggregate, FirstSeenOrder, Yields;
    AggregateIsRight(AllSources(qrRaw, world).value, world.lib);
  }

  /** The decision counts the different identities there are to read: none, one, or several. */
  lemma DecisionIff(qrRaw: Option<string>, world: World)
    requires Collected(qrRaw, world).Some?
    ensures Collected(qrRaw, world).value.Decide() == MultipleReceipts <==> OffersTwo(qrRaw, world)
    ensures Collected(qrRaw, world).value.Decide() == NoReceipt <==> !OffersSome(qrRaw, world)
  {
    hide Collected, Offers, IdentityOf;
    var unique := Collected(qrRaw, world).value.unique;
    CollectedDistinct(qrRaw, world);
    if |unique| > 0 {
      var a := UniqueIsOffered(qrRaw, world, unique[0]);
      if |unique| > 1 {
        var b := UniqueIsOffered(qrRaw, world, unique[1]);
        assert unique[0] != unique[1];
      }
    }
    if OffersSome(qrRaw, world) {
      var a :| Offers(qrRaw, world, a) && IdentityOf(a, world.lib).Some?;
      OfferedIsUnique(qrRaw, world, a);
    }
    if OffersTwo(qrRaw, world) {
      var a, b :| Offers(qrRaw, world, a) && Offers(qrRaw, world, b)
        && IdentityOf(a, world.lib).Some? && IdentityOf(b, world.lib).Some?
        && IdentityOf(a, world.lib) != IdentityOf(b, world.lib);
      OfferedIsUnique(qrRaw, world, a);
      OfferedIsUnique(qrRaw, world, b);
    }
  }

  lemma OnlyIdentityIsPrimary(qrRaw: Option<string>, world: World)
    ensures Collected(qrRaw, world).Some? ==>
      forall id :: OffersOnly(qrRaw, world, id) ==>
        && Collected(qrRaw, world).value.Primary() == Some(id)
        && Collected(qrRaw, world).value.Decide().SingleReceipt?
    ensures Collected(qrRaw, world).Some? && OffersTwo(qrRaw, world) ==>
      Collected(qrRaw, world).value.Decide().MultipleReceipts?
  {
    hide Collected, OffersOnly, OffersTwo;
    if Collected(qrRaw, world).Some? {
      DecisionIff(qrRaw, world);
      forall id | OffersOnly(qrRaw, world, id) ensures Collected(qrRaw, world).value.Primary() == Some(id) {
        SingleIdentityIff(qrRaw, world, id);
      }
    }
  }

  /** Collection comes to its end exactly when no file raises and no text there is to read overflows. */
  lemma CollectsIff(qrRaw: Option<string>, world: World)
    ensures Collected(qrRaw, world).Some? <==>
      && (forall k :: 0 <= k < |world.files| ==> !FileRaises(world.files[k]))
      && !LegacyRaises(qrRaw, world)
      && forall text :: Offers(qrRaw, world, text) ==> !Overflows(text, world.lib)
  {
    hide AllSources, Offers, Overflows, FileRaises, Aggregate;
    CollectionRaisesIff(qrRaw, world);
    if AllSources(qrRaw, world).Some? {
      var all := AllSources(qrRaw, world).value;
      if k :| 0 <= k < |all| && Overflows(all[k].1, world.lib) {
        SourcesAreOffered(qrRaw, world, all[k].1);
      }
      if text :| Offers(qrRaw, world, text) && Overflows(text, world.lib) {
        SourcesAreOffered(qrRaw, world, text);
        var k :| 0 <= k < |all| && all[k].1 == text;
      }
    }
  }

  function StartResult(status: Status, world: World): StepResult {
    if status == OcrInProgress then Done
    else if world.cut == Some(Starting) then Cut
    else if world.startRaises then DbError
    else Done
  }

  /** How the steps after collection end. */
  function DecidedResult(world: World, agg: Aggregation): StepResult {
    if agg.Decide().MultipleReceipts? then MultipleResult(world)
    else if world.demo then DemoResult(world, ParsedOf(agg, world.lib))
    else FullResult(world, ParsedOf(agg, world.lib))
  }

  /** How the steps of a run end, before any handler. */
  function RunResult(status: Status, qrRaw: Option<string>, world: World): StepResult {
    if StartResult(status, world) != Done then StartResult(status, world)
    else if world.cut == Some(Collecting) && ReadsFiles(qrRaw, world) then Cut
    else if Collected(qrRaw, world).None? then Crashed
    else DecidedResult(world, Collected(qrRaw, world).value)
  }

  predicate HandlerLands(world: World) {
    world.cut != Some(Handling) && !world.finalWrite.Refused?
  }

  /** A run whose steps end with r leaves its result in the database: through them or through a handler. */
  predicate Leaves(world: World, r: StepResult) {
    Lands(r) || ((r.StepError? || r.Crashed?) && HandlerLands(world))
  }

  /** The same from the start of the run: what a caller knows before it. */
  predicate Stores(status: Status, qrRaw: Option<string>, world: World) {
    Leaves(world, RunResult(status, qrRaw, world))
  }

  /** No database statement of any run raises, and it is not cut. */
  predicate Undisturbed(world: World) {
    && world.cut.None? && !world.finalWrite.Refused?
    && !world.startRaises && !world.catalogRaises && !world.promotionsRaise && !world.finalReadRaises
    && !world.qrRawCheck.CheckRaises? && !world.tripleCheck.CheckRaises? && !world.crossSellerCheck.CheckRaises?
    && forall k :: 0 <= k < |world.files| ==> !world.hashCheck(k).CheckRaises?
  }

  /** Whatever else goes wrong, an undisturbed run leaves its result. */
  lemma UndisturbedStores(status: Status, qrRaw: Option<string>, world: World)
    requires Undisturbed(world)
    ensures Stores(status, qrRaw, world)
  {
    hide Collected, ParsedOf, Fetch, RetryConfig, SumsDisagree, Match, NothingFits;
    NoCheckRaises(world.hashCheck, |world.files|);
  }

  lemma {:induction false} NoCheckRaises(checks: nat -> Check, n: nat)
    requires forall k :: 0 <= k < n ==> !checks(k).CheckRaises?
    ensures !FirstUnclear(checks, n).CheckRaises?
  {
    if n > 0 {
      NoCheckRaises(checks, n - 1);
    }
  }

  class Run {
    /** The row as others see it, and as this run's open transaction does. */
    var committed: Row
    var row: Row
    /** A database statement has raised: the transaction takes no more statements. */
    var broken: bool
    /** This run's last write has been committed. */
    var landed: bool
    /** The loaded receipt's status, and the statuses this run has written. */
    var status: Status
    var writes: seq<Status>
    /** The pipeline result being filled. */
    var qrRaw: Option<string>
    var parsed: Option<ParsedQr>
    var ofd: Option<OfdReceipt>
    var signals: seq<Signal>
    var items: seq<MatchedItem>
    var bonus: int
    /** Calls made to the OFD client. */
    var clientCalls: nat

    constructor (row: Row)
      ensures committed == row
    {
      committed, this.row, broken, landed, status, writes := row, row, false, false, row.status, [];
      qrRaw, parsed, ofd, signals, items, bonus, clientCalls := None, None, None, [], [], 0, 0;
    }

    /**
     The UPDATE that ends a run, with its commit; the only statement by which a run changes what others
     see. In an aborted transaction it raises like any other.
     */
    method UpdateAndCommit(r: Row, world: World) returns (result: StepResult)
      modifies `row, `committed, `writes, `broken, `landed
      ensures result == if old(broken) then DbError else WriteResult(world)
      ensures broken <==> !result.Done?
      ensures Lands(result) ==> landed && committed == row == r && writes == old(writes) + [r.status]
      ensures !Lands(result) ==>
        landed == old(landed) && committed == old(committed) && row == old(row) && writes == old(writes)
    {
      if broken || world.finalWrite.Refused? {
        broken := true;
        return DbError;
      }
      row := r;
      writes := writes + [r.status];
      committed, landed := row, true;
      if world.finalWrite.TakesUnseen? {
        broken := true;
        return Unseen;
      }
      return Done;
    }

    /** _step_set_status: nothing on the same status, a StepError off the table, else an UPDATE without commit. */
    method StepSetStatus(to: Status, world: World) returns (r: StepResult)
      requires status == row.status && !broken
      modifies `row, `writes, `status, `broken
      ensures r.StepError? <==> old(status) != to && !CanTransition(old(status), to, System)
      ensures r.StepError? ==> r == StepError(TransitionNotAllowed)
      ensures !r.StepError? && to == OcrInProgress ==> r == StartResult(old(status), world)
      ensures broken <==> r.DbError?
      ensures r.Done? ==>
        && row == old(row).(status := to) && status == to
        && writes == old(writes) + if old(status) == to then [] else [to]
      ensures !r.Done? ==> row == old(row) && writes == old(writes) && status == old(status)
    {
      if status == to {
        return Done;
      }
      if !CanTransition(status, to, System) {
        return StepError(TransitionNotAllowed);
      }
      if world.cut == Some(Starting) {
        return Cut;
      }
      if world.startRaises {
        broken := true;
        return DbError;
      }
      row := row.(status := to);
      writes := writes + [to];
      status := to;
      return Done;
    }

    /** Crashed when reading a file or a text raises. */
    method CollectCandidates(world: World) returns (r: StepResult, agg: Option<Aggregation>)
      requires parsed == None && qrRaw == None
      modifies `qrRaw, `parsed
      ensures r.Cut? <==> world.cut == Some(Collecting) && ReadsFiles(row.qrRaw, world)
      ensures !r.Cut? ==> agg == Collected(row.qrRaw, world) && r == if agg.Some? then Done else Crashed
      ensures r.Cut? ==> agg.None?
      ensures agg.Some? ==>
        && parsed == ParsedOf(agg.value, world.lib)
        && (parsed.Some? <==> agg.value.Primary().Some?)
        && (parsed.Some? ==> IdentityOfTriple(parsed.value.fn, parsed.value.fd, parsed.value.fp) == agg.value.Primary())
      ensures parsed.Some? ==> agg.Some? && qrRaw == RawFor(agg.value.candidates, agg.value.Primary().value)
      ensures parsed.None? ==> qrRaw.None?
    {
      hide AllSources, Aggregates, Aggregate, FirstSeenOrder, ParseQr, RawFor, IdentityOfTriple, FirstOf;
      if world.cut == Some(Collecting) && ReadsFiles(row.qrRaw, world) {
        return Cut, None;
      }
      var sources, raised := CollectSources(row.qrRaw, world);
      if raised {
        return Crashed, None;
      }
      agg := AggregateIdentities(sources, world.lib);
      if agg.None? {
        return Crashed, None;
      }
      var primary := agg.value.Primary();
      if primary.Some? {
        PrimaryReparses(agg.value, sources, world.lib);
        var raw := RawFor(agg.value.candidates, primary.value);
        if raw.Some? {
          qrRaw := raw;
          var again := ParseQr(raw.value, world.lib);
          if again.Success? {
            parsed := Some(again.value);
          }
        }
      }
      return Done, agg;
    }

    /** The checks in order; the first hit adds its one signal and ends the step. */
    method StepFraudEarly(world: World) returns (r: StepResult)
      requires !broken
      modifies `signals, `broken
      ensures r == if parsed.Some? then EarlyResult(world) else Done
      ensures !r.Unseen? && (broken <==> r.DbError?)
      ensures signals == old(signals) + SignalsOf(r)
      ensures parsed.Some? && world.cut != Some(Checking) ==>
        && (world.qrRawCheck.Hit? ==> r == StepError(QrAlreadyUsed) && signals == old(signals) + [QrRawDuplicate])
        && (world.qrRawCheck.CheckRaises? ==> r == DbError)
        && (world.qrRawCheck.Clear? && world.tripleCheck.Hit? ==>
              r == StepError(TripleAlreadyUsed) && signals == old(signals) + [TripleDuplicate])
        && (world.qrRawCheck.Clear? && world.tripleCheck.CheckRaises? ==> r == DbError)
        && (world.qrRawCheck.Clear? && world.tripleCheck.Clear? && world.tooOld ==>
              r == StepError(PurchaseTooOld) && signals == old(signals) + [DateTooOld])
        && (world.qrRawCheck.Clear? && world.tripleCheck.Clear? && !world.tooOld && world.crossSellerCheck.Hit? ==>
              r == StepError(CrossSeller) && signals == old(signals) + [CrossSellerDuplicate])
        && (NothingSuspicious(world.(crossSellerCheck := Clear)) && world.crossSellerCheck.CheckRaises? ==>
              r == DbError)
    {
      if parsed.None? {
        return Done;
      }
      if world.cut == Some(Checking) {
        return Cut;
      }
      match world.qrRawCheck {
        case CheckRaises =>
          broken := true;
          return DbError;
        case Hit =>
          signals := signals + [QrRawDuplicate];
          return StepError(QrAlreadyUsed);
        case Clear =>
      }
      match world.tripleCheck {
        case CheckRaises =>
          broken := true;
          return DbError;
        case Hit =>
          signals := signals + [TripleDuplicate];
          return StepError(TripleAlreadyUsed);
        case Clear =>
      }
      if world.tooOld {
        signals := signals + [DateTooOld];
        return StepError(PurchaseTooOld);
      }
      match world.crossSellerCheck {
        case CheckRaises =>
          broken := true;
          return DbError;
        case Hit =>
          signals := signals + [CrossSellerDuplicate];
          return StepError(CrossSeller);
        case Clear =>
      }
      return Done;
    }

    /** Cache first; otherwise the retry loop. Without a parsed QR nothing is asked. */
    method StepOfdFetch(world: World) returns (r: StepResult)
      requires ofd == None
      modifies `ofd, `clientCalls
      ensures if parsed.Some? then (r, ofd) == FetchResult(world) else r.Done? && ofd.None?
      ensures SignalsOf(r) == [] && !r.DbError? && !r.Unseen?
      ensures parsed.None? || world.cacheRaises || world.cached.Some? ==> clientCalls == old(clientCalls)
      ensures parsed.Some? && !world.cacheRaises && world.cached.None? && !r.Cut? ==>
        clientCalls == old(clientCalls) + Fetch(world.provider, RetryConfig(world.retrySetting).0).calls
      ensures clientCalls <= old(clientCalls) + NonNegative(RetryConfig(world.retrySetting).0)
      ensures parsed.Some? && !CutFetching(world) && !world.cacheRaises ==>
        if world.cached.Some? then r.Done? && ofd == world.cached
        else
          match Fetch(world.provider, RetryConfig(world.retrySetting).0).result
          case Success(receipt) => if world.cacheWriteRaises then r.Crashed? else r.Done? && ofd == Some(receipt)
          case Failure(NotFoundInOfd) => r == StepError(ReceiptNotFound)
          case Failure(UpstreamUnavailable) => r == StepError(OfdUpstreamUnavailable)
    {
      hide RetryConfig, Fetch;
      if parsed.None? {
        return Done;
      }
      var asks := !world.cacheRaises && world.cached.None?;
      if CutFetching(world) && !asks {
        return Cut;
      }
      if world.cacheRaises {
        return Crashed;
      }
      if world.cached.Some? {
        ofd := world.cached;
        return Done;
      }
      var result, calls, slept := FetchWithRetry(world.retrySetting, world.provider);
      FetchIsBounded(world.provider, RetryConfig(world.retrySetting).0);
      if CutFetching(world) {
        clientCalls := clientCalls + if world.cut.value.calls < calls then world.cut.value.calls else calls;
        return Cut;
      }
      clientCalls := clientCalls + calls;
      match result {
        case Failure(NotFoundInOfd) => return StepError(ReceiptNotFound);
        case Failure(UpstreamUnavailable) => return StepError(OfdUpstreamUnavailable);
        case Success(receipt) =>
          if world.cacheWriteRaises {
            return Crashed;
          }
          ofd := Some(receipt);
          return Done;
      }
    }

    /** Sums may differ by one percent of the OFD sum, and by one kopeck in any case. */
    method StepVerifyQrVsOfd() returns (r: StepResult)
      modifies `signals
      ensures r == if parsed.Some? && ofd.Some? && SumsDisagree(parsed.value.totalSumKop, ofd.value.totalSum)
                   then StepError(SumsDiffer) else Done
      ensures signals == old(signals) + SignalsOf(r) == old(signals) + if r.Done? then [] else [SumMismatch]
    {
      if parsed.None? || ofd.None? {
        return Done;
      }
      var difference := parsed.value.totalSumKop - ofd.value.totalSum;
      var deviation := if difference < 0 then -difference else difference;
      var tolerance := ofd.value.totalSum as real * 1.0 / 100.0;
      if deviation as real > (if tolerance > 1.0 then tolerance else 1.0) {
        signals := signals + [SumMismatch];
        return StepError(SumsDiffer);
      }
      return Done;
    }

    /** Each OFD item with its match; a StepError exactly when there are items and none matches. */
    method StepSkuMatch(world: World) returns (r: StepResult)
      requires items == []
      modifies `items, `signals
      ensures items == if ofd.Some? then Match(ofd.value, world.matcher, |ofd.value.items|) else []
      ensures r == if NothingFits(items) then StepError(NothingMatched) else Done
      ensures signals == old(signals) + SignalsOf(r) == old(signals) + if r.Done? then [] else [NoSkuMatch]
      ensures !r.Done? <==>
        ofd.Some? && ofd.value.items != [] && forall k :: 0 <= k < |ofd.value.items| ==> world.matcher(k).None?
    {
      if ofd.None? {
        return Done;
      }
      var matched: seq<MatchedItem> := [];
      var hits := 0;
      for k := 0 to |ofd.value.items|
        invariant matched == Match(ofd.value, world.matcher, k)
        invariant hits > 0 <==> exists j :: 0 <= j < k && matched[j].sku.Some?
        invariant hits >= 0
      {
        var sku := world.matcher(k);
        matched := matched + [MatchedItem(ofd.value.items[k].0, ofd.value.items[k].1, sku)];
        if sku.Some? {
          hits := hits + 1;
        }
      }
      items := matched;
      if hits == 0 && matched != [] {
        signals := signals + [NoSkuMatch];
        return StepError(NothingMatched);
      }
      return Done;
    }

    method StepBonusCalc(world: World)
      modifies `bonus
      ensures if ofd.Some? then Suggested(items, world, bonus) else bonus == old(bonus)
    {
      if ofd.None? {
        return;
      }
      var context: seq<BonusRules.Item> := [];
      for k := 0 to |items|
        invariant |context| == k
        invariant forall j :: 0 <= j < k ==> context[j] == BonusRules.Item(items[j].qty, items[j].sku)
      {
        context := context + [BonusRules.Item(items[k].qty, items[k].sku)];
      }
      assert context == BonusItems(items);
      var r := BonusEngine.CalculateBonus(world.promotions, BonusRules.Context(context, world.receiptCount));
      bonus := r.totalAmount;
    }

    // -------------------------------------------------------------- finalisers

    /** _recognized_vals laid over the row: only what was recognised overwrites a column. */
    function Recognized(): Row
      reads this
    {
      var withQr := if Truthy(qrRaw) then row.(qrRaw := qrRaw) else row;
      var withTriple :=
        if parsed.Some? then
          withQr.(fn := Some(parsed.value.fn), fd := Some(parsed.value.fd), fp := Some(parsed.value.fp),
                  purchaseDate := Some(parsed.value.purchaseDate), totalSum := Some(parsed.value.totalSumKop))
        else withQr;
      var withOfd :=
        if ofd.Some? then
          withTriple.(totalSum := Some(ofd.value.totalSum),
                      shopName := ofd.value.shopName, shopInn := ofd.value.shopInn)
        else withTriple;
      if items != [] then withOfd.(items := items) else withOfd
    }

    /** Column by column: what was recognised overwrites, OFD data before QR data, and the rest stays. */
    ghost predicate Merged(before: Row, after: Row)
      reads this
    {
      && after.qrRaw == (if Truthy(qrRaw) then qrRaw else before.qrRaw)
      && TripleStored(parsed, before, after)
      && after.purchaseDate == (if parsed.Some? then Some(parsed.value.purchaseDate) else before.purchaseDate)
      && after.totalSum == (if ofd.Some? then Some(ofd.value.totalSum)
                            else if parsed.Some? then Some(parsed.value.totalSumKop) else before.totalSum)
      && after.shopName == (if ofd.Some? then ofd.value.shopName else before.shopName)
      && after.shopInn == (if ofd.Some? then ofd.value.shopInn else before.shopInn)
      && after.items == (if items != [] then items else before.items)
    }

    /** The handlers' write: a no-op, apart from the log, when the database refuses it. */
    method Finish(reason: Option<Reason>, world: World)
      modifies `row, `committed, `writes, `broken, `landed
      ensures landed <==> old(landed) || (!old(broken) && HandlerLands(world))
      ensures old(broken) || !HandlerLands(world) ==> committed == old(committed) && writes == old(writes)
      ensures !old(broken) && HandlerLands(world) ==>
        && committed.status == OnReview && writes == old(writes) + [OnReview]
        && Merged(old(row), committed) && committed.signals == signals && committed.bonusAmount == old(row.bonusAmount)
        && committed.rejectionReason == if reason.Some? then reason else old(row.rejectionReason)
      ensures !old(broken) && HandlerLands(world) && parsed.Some? ==>
        && committed.fn == Some(parsed.value.fn) && committed.fd == Some(parsed.value.fd)
        && committed.fp == Some(parsed.value.fp)
        && committed.purchaseDate == Some(parsed.value.purchaseDate)
        && (ofd.None? ==> committed.totalSum == Some(parsed.value.totalSumKop))
      ensures !old(broken) && HandlerLands(world) && ofd.Some? ==>
        && committed.totalSum == Some(ofd.value.totalSum)
        && committed.shopName == ofd.value.shopName && committed.shopInn == ofd.value.shopInn
    {
      var vals := Recognized().(status := OnReview, signals := signals);
      if reason.Some? {
        vals := vals.(rejectionReason := reason);
      }
      if world.cut == Some(Handling) {
        return;
      }
      var result := UpdateAndCommit(vals, world);
    }

    /** _historical_duplicate_signals: the triple first, then the files up to the first known one. */
    method HistoricalDuplicates(world: World) returns (r: StepResult, found: seq<Signal>)
      requires !broken
      modifies `broken
      ensures r == (if HistoryRaises(world, parsed) then DbError else Done) && (broken <==> r.DbError?)
      ensures r.Done? ==> found == HistorySignals(world, parsed)
      ensures r.Done? ==>
        && (TripleSeenBefore in found <==> parsed.Some? && world.tripleCheck.Hit?)
        && (FileSeenBefore in found
            <==> exists k :: 0 <= k < |world.files| && world.hashCheck(k).Hit?
                             && forall j :: 0 <= j < k ==> world.hashCheck(j).Clear?)
    {
      found := [];
      if parsed.Some? {
        match world.tripleCheck {
          case CheckRaises =>
            broken := true;
            return DbError, [];
          case Hit => found := found + [TripleSeenBefore];
          case Clear =>
        }
      }
      var files := CheckFiles(world.hashCheck, |world.files|);
      match files {
        case CheckRaises =>
          broken := true;
          return DbError, [];
        case Hit => found := found + [FileSeenBefore];
        case Clear =>
      }
      return Done, found;
    }

    /** Demo mode; a lookup that raises does so before anything is written. */
    method FinalizeDemo(world: World) returns (r: StepResult)
      requires !broken && !landed
      modifies `row, `committed, `writes, `status, `broken, `landed
      ensures r == DemoResult(world, parsed)
      ensures (broken <==> r.DbError? || r.Unseen?) && (landed <==> Lands(r))
      ensures !landed ==> row == old(row) && committed == old(committed) && writes == old(writes)
      ensures landed ==>
        && committed.status == OnReview && writes == old(writes) + [OnReview] && Merged(old(row), committed)
        && committed.bonusAmount == 0 && committed.rejectionReason == None
        && committed.signals == signals + [DemoMode] + HistorySignals(world, parsed)
    {
      if world.cut == Some(Checking) && (parsed.Some? || world.files != []) {
        return Cut;
      }
      hide HistoryRaises, HistorySignals, TripleStored;
      var duplicates: seq<Signal>;
      r, duplicates := HistoricalDuplicates(world);
      if !r.Done? {
        return r;
      }
      var found := signals + [DemoMode] + duplicates;
      if world.cut == Some(Finalizing) {
        return Cut;
      }
      r := UpdateAndCommit(
        Recognized().(status := OnReview, bonusAmount := 0, rejectionReason := None, signals := found), world);
      if r.Done? {
        status := OnReview;
      }
    }

    /** Several identities: a signal for the admin. Reports whether the defensive branch was taken. */
    method FinalizeMultiple(world: World) returns (r: StepResult, defensive: bool)
      requires !broken && !landed
      modifies `row, `committed, `writes, `status, `broken, `landed
      ensures defensive <==> !CanTransition(old(status), OnReview, System)
      ensures !defensive ==>
        r == MultipleResult(world) && (landed <==> Lands(r)) && (broken <==> r.DbError? || r.Unseen?)
      ensures defensive ==> r.Done? && (landed <==> HandlerLands(world))
      ensures !landed ==> committed == old(committed) && writes == old(writes)
      ensures landed ==>
        writes == old(writes) + [OnReview] && committed.signals == signals + [MultipleReceiptsDetected]
      ensures landed && !defensive ==>
        committed == old(row).(status := OnReview, rejectionReason := None,
                               signals := committed.signals, bonusAmount := 0)
      ensures landed && defensive ==> committed == old(row).(status := OnReview, signals := committed.signals)
    {
      var found := signals + [MultipleReceiptsDetected];
      if !CanTransition(status, OnReview, System) {
        if world.cut != Some(Handling) {
          r := UpdateAndCommit(row.(status := OnReview, signals := found), world);
        }
        return Done, true;
      }
      if world.cut == Some(Finalizing) {
        return Cut, false;
      }
      r := UpdateAndCommit(
        row.(status := OnReview, rejectionReason := None, signals := found, bonusAmount := 0), world);
      if r.Done? {
        status := OnReview;
      }
      return r, false;
    }

    /** Every column after a completed run. */
    ghost predicate Reviewed(before: Row, after: Row)
      reads this
    {
      && after.status == OnReview && after.signals == signals && after.items == items && after.bonusAmount == bonus
      && after.rejectionReason == before.rejectionReason
      && TripleStored(parsed, before, after)
      && after.qrRaw == (if parsed.Some? then qrRaw else before.qrRaw)
      && after.purchaseDate == (if parsed.Some? then Some(parsed.value.purchaseDate) else before.purchaseDate)
      && after.totalSum == (if ofd.Some? then Some(ofd.value.totalSum) else before.totalSum)
      && after.shopName == (if ofd.Some? then ofd.value.shopName else before.shopName)
      && after.shopInn == (if ofd.Some? then ofd.value.shopInn else before.shopInn)
    }

    method FinalizeReview(world: World) returns (r: StepResult)
      requires !broken && !landed
      modifies `row, `committed, `writes, `broken, `landed
      ensures r == if world.cut == Some(Finalizing) then Cut
                   else if world.finalReadRaises then DbError else WriteResult(world)
      ensures (broken <==> r.DbError? || r.Unseen?) && (landed <==> Lands(r))
      ensures !landed ==> row == old(row) && committed == old(committed) && writes == old(writes)
      ensures landed ==> Reviewed(old(row), committed) && writes == old(writes) + [OnReview]
      ensures landed && parsed.Some? ==>
        && committed.fn == Some(parsed.value.fn) && committed.fd == Some(parsed.value.fd)
        && committed.fp == Some(parsed.value.fp) && committed.purchaseDate == Some(parsed.value.purchaseDate)
      ensures landed && ofd.Some? ==>
        && committed.totalSum == Some(ofd.value.totalSum)
        && committed.shopName == ofd.value.shopName && committed.shopInn == ofd.value.shopInn
      ensures landed ==> committed.bonusAmount == bonus && committed.items == items && committed.signals == signals
    {
      if world.cut == Some(Finalizing) {
        return Cut;
      }
      if world.finalReadRaises {
        broken := true;
        return DbError;
      }
      var vals := row.(status := OnReview, signals := signals, items := items, bonusAmount := bonus);
      if parsed.Some? {
        vals := vals.(qrRaw := qrRaw,
                      fn := Some(parsed.value.fn), fd := Some(parsed.value.fd), fp := Some(parsed.value.fp),
                      purchaseDate := Some(parsed.value.purchaseDate));
      }
      if ofd.Some? {
        vals := vals.(totalSum := Some(ofd.value.totalSum),
                      shopName := ofd.value.shopName, shopInn := ofd.value.shopInn);
      }
      r := UpdateAndCommit(vals, world);
    }

    /** The steps of full mode that concern the parsed QR. */
    method QrSteps(world: World) returns (r: StepResult)
      requires !broken && ofd == None
      modifies `signals, `ofd, `clientCalls, `broken
      ensures r == QrResult(world, parsed) && !r.Unseen? && (broken <==> r.DbError?)
      ensures r.Done? ==> ofd == OfdOf(world, parsed)
      ensures parsed.None? ==> clientCalls == old(clientCalls)
      ensures clientCalls <= old(clientCalls) + NonNegative(RetryConfig(world.retrySetting).0)
      ensures signals == old(signals) + SignalsOf(r)
    {
      hide SumsDisagree, RetryConfig, Fetch, NonNegative, EarlyResult, FetchResult;
      r := StepFraudEarly(world);
      if !r.Done? { return r; }
      r := StepOfdFetch(world);
      if !r.Done? { return r; }
      r := StepVerifyQrVsOfd();
    }

    /** Full mode from the fraud checks to the final write; only a completed run writes. */
    method FullMode(world: World) returns (r: StepResult)
      requires !broken && !landed && ofd == None && items == []
      modifies `signals, `ofd, `clientCalls, `items, `bonus, `row, `committed, `writes, `broken, `landed
      ensures r == FullResult(world, parsed) && (broken <==> r.DbError? || r.Unseen?) && (landed <==> Lands(r))
      ensures parsed.None? ==> clientCalls == old(clientCalls)
      ensures clientCalls <= old(clientCalls) + NonNegative(RetryConfig(world.retrySetting).0)
      ensures signals == old(signals) + SignalsOf(r)
      ensures !landed ==> row == old(row) && committed == old(committed) && writes == old(writes)
      ensures landed ==> Reviewed(old(row), committed) && writes == old(writes) + [OnReview]
      ensures landed ==> ofd == OfdOf(world, parsed)
      ensures landed ==> if ofd.Some? then Suggested(items, world, bonus) else items == [] && bonus == old(bonus)
    {
      hide Suggested, RetryConfig, NonNegative, Reviewed, QrResult, OfdOf, Match;
      r := QrSteps(world);
      if !r.Done? { return r; }
      if world.cut == Some(LoadingCatalog) {
        return Cut;
      }
      if world.catalogRaises {
        broken := true;
        return DbError;
      }
      assert signals == old(signals);
      r := StepSkuMatch(world);
      if !r.Done? { return r; }
      assert signals == old(signals);
      if world.cut == Some(LoadingPromotions) {
        return Cut;
      }
      if world.promotionsRaise {
        broken := true;
        return DbError;
      }
      StepBonusCalc(world);
      r := FinalizeReview(world);
    }

    /** Demo or full mode for at most one identity, with the handlers that catch whatever it raises. */
    method ProcessSingle(world: World)
      requires !broken && !landed && signals == [] && ofd == None && items == [] && bonus == 0
      modifies this
      ensures parsed == old(parsed) && qrRaw == old(qrRaw)
      ensures landed <==> Leaves(world, if world.demo then DemoResult(world, parsed) else FullResult(world, parsed))
      ensures !landed ==> committed == old(committed) && writes == old(writes)
      ensures landed ==>
        committed.status == OnReview && writes == old(writes) + [OnReview] && TripleStored(parsed, old(row), committed)
      ensures parsed.None? || world.demo ==> clientCalls == old(clientCalls)
      ensures clientCalls <= old(clientCalls) + NonNegative(RetryConfig(world.retrySetting).0)
      ensures landed && world.demo ==> committed.bonusAmount == 0 && DemoMode in committed.signals
      ensures !world.demo && Lands(FullResult(world, parsed)) ==>
        && Reviewed(old(row), committed) && committed.signals == []
        && if ofd.Some? then Suggested(items, world, committed.bonusAmount) else committed.bonusAmount == 0
      ensures landed && !world.demo && !Lands(FullResult(world, parsed)) ==>
        && Merged(old(row), committed) && committed.bonusAmount == old(row.bonusAmount)
        && committed.signals == SignalsOf(FullResult(world, parsed))
        && committed.rejectionReason == if FullResult(world, parsed).StepError?
                                        then Some(FullResult(world, parsed).reason) else old(row.rejectionReason)
    {
      hide RetryConfig, Suggested, FullResult, HistoryRaises, NonNegative;
      var r: StepResult;
      if world.demo {
        r := FinalizeDemo(world);
      } else {
        r := FullMode(world);
      }
      match r {
        case Done =>
        case Cut =>
        case StepError(reason) => Finish(Some(reason), world);
        case _ => Finish(None, world);
      }
    }

    /** process once the candidates are collected: several identities, or at most one. */
    method ProcessCandidates(world: World, agg: Aggregation) returns (defensive: bool)
      requires !broken && !landed && signals == [] && ofd == None && items == [] && bonus == 0
      requires status == OcrInProgress && parsed == ParsedOf(agg, world.lib) && (parsed.Some? <==> agg.Primary().Some?)
      modifies this
      ensures !defensive && parsed == old(parsed)
      ensures landed <==> Leaves(world, DecidedResult(world, agg))
      ensures !landed ==> committed == old(committed) && writes == old(writes)
      ensures landed ==>
        committed.status == OnReview && writes == old(writes) + [OnReview] && TripleStored(parsed, old(row), committed)
      ensures landed && agg.Decide().MultipleReceipts? ==>
        committed.signals == [MultipleReceiptsDetected] && committed.bonusAmount == 0
      ensures parsed.None? || world.demo ==> clientCalls == old(clientCalls)
      ensures clientCalls <= old(clientCalls) + NonNegative(RetryConfig(world.retrySetting).0)
    {
      hide RetryConfig, ParsedOf, NonNegative, FullResult, DemoResult, SignalsOf, Suggested, Reviewed, Merged;
      ProcessingIsReachable(OcrInProgress);
      if agg.Decide().MultipleReceipts? {
        var r: StepResult;
        r, defensive := FinalizeMultiple(world);
        if !r.Done? && !r.Cut? {
          Finish(None, world);
        }
      } else {
        defensive := false;
        ProcessSingle(world);
      }
    }

    /** process after its guard, on a receipt that is not terminal. */
    method ProcessOpen(world: World) returns (defensive: bool)
      requires row == committed && !broken && !landed && writes == [] && status == row.status && !Terminal(status)
      requires qrRaw == None && parsed == None && ofd == None && signals == [] && items == [] && bonus == 0
      requires clientCalls == 0
      modifies this
      ensures !defensive
      ensures landed <==> Stores(old(status), old(committed.qrRaw), world)
      ensures !landed ==> committed == old(committed)
      ensures SystemPath(old(status), writes)
      ensures landed ==> committed.status == OnReview && Last(old(status), writes) == OnReview
      ensures
        var agg := Collected(old(committed.qrRaw), world);
        && (landed && agg.Some? && agg.value.Decide().SingleReceipt? ==>
              StoredIdentity(committed) == agg.value.Primary())
        && (agg.None? || !agg.value.Decide().SingleReceipt? ==>
              SameTriple(committed, old(committed)) && clientCalls == 0)
        && (landed && agg.Some? && agg.value.Decide().MultipleReceipts? ==>
              committed.signals == [MultipleReceiptsDetected] && committed.bonusAmount == 0)
      ensures world.demo ==> clientCalls == 0
      ensures clientCalls <= NonNegative(RetryConfig(world.retrySetting).0)
    {
      hide Normalize, ParseQr, SystemPath, AllSources, Aggregates, Aggregate, RetryConfig;
      hide Collects, ParsedOf, NonNegative;
      hide DecidedResult, ReadsFiles, Collected;
      defensive := false;
      ProcessingIsReachable(status);
      RunPaths(status);
      var r := StepSetStatus(OcrInProgress, world);
      assert !r.StepError?;
      if r.Cut? {
        return;
      }
      if !r.Done? {
        Finish(None, world);
        return;
      }
      assert writes == if old(status) == OcrInProgress then [] else [OcrInProgress];
      var agg: Option<Aggregation>;
      r, agg := CollectCandidates(world);
      if r.Cut? {
        return;
      }
      if !r.Done? {
        Finish(None, world);
      } else {
        defensive := ProcessCandidates(world, agg.value);
      }
    }

    /**
     process: a terminal receipt is untouched. Any other one ends on review, by system edges only, exactly
     when the run stores a result: when it is not cut and no database statement it gets to raises. Otherwise
     its row is exactly what it was. When everything there is to read yields one identity, every exit stores
     a triple that stands for it; with none or several the triple stays and the OFD provider is not asked.
     The defensive branch is never taken.
     */
    method Process(world: World) returns (defensive: bool)
      modifies this
      ensures !defensive
      ensures landed <==>
        !Terminal(old(committed.status)) && Stores(old(committed.status), old(committed.qrRaw), world)
      ensures !landed ==> committed == old(committed)
      ensures landed ==> committed.status == OnReview && Last(old(committed.status), writes) == OnReview
      ensures old(committed.status) != OnReview ==> (committed.status == OnReview <==> landed)
      ensures !Terminal(old(committed.status)) ==> SystemPath(old(committed.status), writes)
      ensures Terminal(old(committed.status)) ==> writes == [] && clientCalls == 0
      ensures
        var agg := Collected(old(committed.qrRaw), world);
        && (landed && agg.Some? && agg.value.Decide().SingleReceipt? ==>
              StoredIdentity(committed) == agg.value.Primary())
        && (agg.None? || !agg.value.Decide().SingleReceipt? ==>
              SameTriple(committed, old(committed)) && clientCalls == 0)
        && (landed && agg.Some? && agg.value.Decide().MultipleReceipts? ==>
              committed.signals == [MultipleReceiptsDetected] && committed.bonusAmount == 0)
      ensures landed && Collected(old(committed.qrRaw), world).Some? ==>
        && (forall id :: OffersOnly(old(committed.qrRaw), world, id) ==> StoredIdentity(committed) == Some(id))
        && (OffersTwo(old(committed.qrRaw), world) ==>
              && SameTriple(committed, old(committed)) && clientCalls == 0
              && committed.signals == [MultipleReceiptsDetected] && committed.bonusAmount == 0)
      ensures world.demo ==> clientCalls == 0
      ensures clientCalls <= NonNegative(RetryConfig(world.retrySetting).0)
    {
      hide Normalize, ParseQr, SystemPath, AllSources, Aggregates, RetryConfig, Stores, Collected, Last, NonNegative;
      hide OffersOnly, OffersTwo, Offers, StoredIdentity, RetryConfig, CanTransition;
      OnlyIdentityIsPrimary(committed.qrRaw, world);
      row, broken, landed, writes := committed, false, false, [];
      status := row.status;
      qrRaw, parsed, ofd, signals, items, bonus, clientCalls := None, None, None, [], [], 0, 0;
      if Terminal(status) {
        return false;
      }
      defensive := ProcessOpen(world);
    }

    /**
     Processing the outcome again, in any other world: the receipt ends on review if either run stores a
     result, and is otherwise exactly what it was.
     */
    method ProcessTwice(first: World, second: World) returns (between: Row)
      requires !Terminal(committed.status)
      modifies this
      ensures if Stores(old(committed.status), old(committed.qrRaw), first)
              then between.status == OnReview else between == old(committed)
      ensures if Stores(between.status, between.qrRaw, second)
              then committed.status == OnReview else committed == between
    {
      hide Normalize, SystemPath, AllSources, Aggregates, RetryConfig, SameTriple, Stores, Last, NonNegative, Collected;
      var defensive := Process(first);
      between := committed;
      defensive := Process(second);
    }
  }

  /** The status writes a run can make from a status that is not terminal. */
  lemma RunPaths(from: Status)
    requires !Terminal(from)
    ensures SystemPath(from, [])
    ensures var entry := if from == OcrInProgress then [] else [OcrInProgress];
            && SystemPath(from, entry) && SystemPath(from, entry + [OnReview])
  {
    assert [OcrInProgress][1..] == [] && [OnReview][1..] == [];
    assert [OcrInProgress, OnReview][1..] == [OnReview];
    assert [] + [OnReview] == [OnReview] && [OcrInProgress] + [OnReview] == [OcrInProgress, OnReview];
    assert SystemPath(OcrInProgress, [OnReview]);
  }

  function Last(from: Status, path: seq<Status>): Status {
    if path == [] then from else path[|path| - 1]
  }
}
