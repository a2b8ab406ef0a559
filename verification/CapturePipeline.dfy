/** The pipeline context as the object it is, and one run of it, for every behaviour of the
    providers and the file system. */
module CapturePipeline {
  import opened Wrappers
  import opened CaptureGraph

  /** An image as the device provider returns it. */
  datatype Raw = Raw(captured: bool, code: int, original: Path, laser: Path)

  datatype Profile = Profile(thumbOriginal: bool, thumbPage: bool, thumbColor: bool, thumbFinal: bool,
                             needsScale: bool, needsQuality: bool)

  datatype Request = Request(raw: Raw, profile: Profile)

  // what the outside world answers
  datatype RawAnswer = RawAnswer(shot: Raw, copied: bool, exists_: bool, laserCopied: bool)
  datatype ProviderPage = ProviderPage(id: string, path: Path)
  datatype PageAnswer = PageAnswer(code: int, unsupported: bool, processed: bool, pages: seq<ProviderPage>, path: Path)
  datatype ColorAnswer = ColorAnswer(code: int, unsupported: bool, processed: bool, path: Path)
  datatype FormatAnswer = FormatAnswer(sameFormat: bool, code: int, converted: bool, passthrough: bool, path: Path)
  datatype ThumbAnswer = ThumbAnswer(code: int, generated: bool, path: Path, exists_: bool, copied: bool)
  datatype OutputAnswer = OutputAnswer(page: ThumbAnswer, color: ColorAnswer, colorThumb: ThumbAnswer,
                                       format: FormatAnswer, finalThumb: ThumbAnswer)

  datatype World = World(raw: RawAnswer, originalThumb: ThumbAnswer, page: PageAnswer, outputs: nat -> OutputAnswer)

  datatype Result = Result(status: RunStatus, code: int, assets: seq<Asset>, stages: seq<Stage>)

  function Or(p: Path, q: Path): Path {
    if p == NoPath then q else p
  }

  function TagOf(single: bool, token: string): Tag {
    if single then None else Some(token)
  }

  /** A format conversion that fails without an error code, or a shot that is no shot. */
  predicate QuietFormat(a: FormatAnswer) {
    a.code == OK && !a.converted && !a.passthrough
  }

  // ----- outputs

  predicate PagesThere(outputs: seq<Output>, assets: seq<Asset>) {
    forall k | 0 <= k < |outputs| :: Has(assets, outputs[k].pageId)
  }

  /** What the workflow has done for the first `n` outputs. */
  predicate Finished(outputs: seq<Output>, n: nat, single: bool, assets: seq<Asset>)
    requires n <= |outputs|
  {
    forall k | 0 <= k < n ::
      && outputs[k].finalId == Some(FinalAsset(TagOf(single, outputs[k].token)))
      && Has(assets, outputs[k].finalId.value)
  }

  /** The first `n` outputs have the files that colour mode and conversion gave them. */
  predicate Converted(p: Profile, outputs: seq<Output>, n: nat, single: bool, answers: nat -> OutputAnswer)
    requires n <= |outputs|
  {
    forall k | 0 <= k < n ::
      var page := NamedPage(outputs[k].token, outputs[k].pagePath);
      && outputs[k].colorPath == ColorPathOf(single, page, answers(k))
      && outputs[k].finalPath == FinalPathOf(p, single, page, answers(k))
  }

  /** Under a final asset id the result shows the file of the last page with that id. */
  predicate LastShown(outputs: seq<Output>, n: nat, assets: seq<Asset>)
    requires n <= |outputs|
  {
    forall k | 0 <= k < n && !SharedLater(outputs, n, k) ::
      outputs[k].finalId.Some? && PathOf(assets, outputs[k].finalId.value) == Some(outputs[k].finalPath)
  }

  /** A later page has the final asset id of page `k`. */
  predicate SharedLater(outputs: seq<Output>, n: nat, k: nat)
    requires k < n <= |outputs|
  {
    exists j :: k < j < n && outputs[j].finalId == outputs[k].finalId
  }

  /** Every page has a final asset of its own, ... */
  predicate Apart(outputs: seq<Output>) {
    forall j, k | 0 <= j < k < |outputs| :: outputs[j].finalId != outputs[k].finalId
  }

  /** ... and finds its own file there. */
  predicate Faithful(outputs: seq<Output>, assets: seq<Asset>) {
    forall k | 0 <= k < |outputs| ::
      outputs[k].finalId.Some? && PathOf(assets, outputs[k].finalId.value) == Some(outputs[k].finalPath)
  }

  datatype NamedPage = NamedPage(token: string, path: Path)

  /** The pages with a file, each with its token or the fallback for an empty one. */
  function PagesOf(pages: seq<ProviderPage>): seq<NamedPage> {
    if pages == [] then []
    else
      var before := PagesOf(pages[..|pages| - 1]);
      var p := pages[|pages| - 1];
      if p.path == NoPath then before
          else before + [NamedPage(SanitizedOr(p.id, "page-" + Decimal(|before| + 1)), p.path)]
  }

  /** What page processing must come to. */
  function ExpectedPages(a: PageAnswer, original: Path): seq<NamedPage> {
    if PageFallsBack(a) then [NamedPage("page-001", original)]
    else if a.pages == [] then [NamedPage("page-001", Or(a.path, Own(PageAsset(None))))]
    else PagesOf(a.pages)
  }

  predicate DistinctTokens(pages: seq<NamedPage>) {
    forall j, k | 0 <= j < k < |pages| :: pages[j].token != pages[k].token
  }

  /** The pages of a run, read from what it is given. */
  function PagesFor(request: Request, w: World): seq<NamedPage> {
    ExpectedPages(w.page, OriginalOf(request.raw, w.raw))
  }

  /** The conversion of page `k` is the first that fails. */
  predicate FailsFirst(p: Profile, answers: nat -> OutputAnswer, k: nat) {
    !FormatWorks(p, answers(k).format) && forall j | 0 <= j < k :: FormatWorks(p, answers(j).format)
  }

  /** The first thing that fails is a shot that is no shot, or a conversion that does not
      convert, and it reports success. */
  predicate FailsQuietly(request: Request, w: World) {
    || (!request.raw.captured && w.raw.shot.code == OK && !w.raw.shot.captured)
    || (RawWorks(request.raw, w.raw) && PageWorks(w.page) && ConversionFailsQuietly(request, w))
  }

  predicate ConversionFailsQuietly(request: Request, w: World) {
    exists k | 0 <= k < |PagesFor(request, w)| ::
      FailsFirst(request.profile, w.outputs, k) && QuietFormat(w.outputs(k).format)
  }

  lemma OneFirst(p: Profile, answers: nat -> OutputAnswer, j: nat, k: nat)
    requires FailsFirst(p, answers, j) && FailsFirst(p, answers, k)
    ensures j == k
  {
  }

  function ColorPathOf(single: bool, page: NamedPage, a: OutputAnswer): Path {
    if ColorFallsBack(a.color) then page.path else Or(a.color.path, Own(ColorAsset(TagOf(single, page.token))))
  }

  /** The file of a finished page, followed through colour mode and format conversion. */
  function FinalPathOf(p: Profile, single: bool, page: NamedPage, a: OutputAnswer): Path {
    var tag := TagOf(single, page.token);
    if Converts(p, a.format) then Or(a.format.path, Own(FinalAsset(tag)))
    else if ColorFallsBack(a.color) then page.path
    else Or(a.color.path, Own(ColorAsset(tag)))
  }

  // ----- the stages of a run, and the files that its result shows

  /** A thumbnail stage of asset `of`, named after `shown`: succeeded iff there is a file. */
  function ThumbStages(enabled: bool, of: AssetId, shown: AssetId, a: ThumbAnswer): seq<Stage> {
    if !enabled then []
    else if Generates(a) || a.copied then [Stage(ThumbStage(shown), true, [of], [Thumb(shown)])]
    else [Stage(ThumbStage(shown), false, [of], [])]
  }

  /** The file of that thumbnail, or what was there before. */
  function ThumbFile(enabled: bool, shown: AssetId, a: ThumbAnswer, before: Option<Path>): Option<Path> {
    if enabled && Generates(a) then Some(Or(a.path, Own(Thumb(shown))))
    else if enabled && a.copied then Some(Own(Thumb(shown)))
    else before
  }

  /** All stages of one page: its thumbnail, colour mode, thumbnail, format, thumbnail. */
  function OutputStages(p: Profile, tag: Tag, pageId: AssetId, a: OutputAnswer): seq<Stage> {
    ThumbStages(p.thumbPage, pageId, PageAsset(tag), a.page)
    + [Stage(ColorStage(tag), true, [pageId], [ColorAsset(tag)])]
    + ThumbStages(p.thumbColor, ColorAsset(tag), ColorAsset(tag), a.colorThumb)
    + [Stage(FormatStage(tag), true, [ColorAsset(tag)], [FinalAsset(tag)])]
    + ThumbStages(p.thumbFinal, FinalAsset(tag), FinalAsset(tag), a.finalThumb)
  }

  /** The stages of the first `n` pages; `pageSingle` says that the provider named one page only. */
  function WorkStages(p: Profile, pages: seq<NamedPage>, pageSingle: bool, answers: nat -> OutputAnswer, n: nat)
    : seq<Stage>
    requires n <= |pages|
  {
    if n == 0 then []
    else
      var token := pages[n - 1].token;
      WorkStages(p, pages, pageSingle, answers, n - 1)
      + OutputStages(p, TagOf(|pages| <= 1, token), PageAsset(TagOf(pageSingle, token)), answers(n - 1))
  }

  predicate PageSingle(a: PageAnswer) {
    PageFallsBack(a) || |a.pages| <= 1
  }

  function PageIdsOf(pages: seq<NamedPage>, pageSingle: bool): seq<AssetId> {
    seq(|pages|, k requires 0 <= k < |pages| => PageAsset(TagOf(pageSingle, pages[k].token)))
  }

  function FinalIdsOf(pages: seq<NamedPage>): seq<AssetId> {
    seq(|pages|, k requires 0 <= k < |pages| => FinalAsset(TagOf(|pages| <= 1, pages[k].token)))
  }

  /** The stages of a successful run, read from what it is given. */
  function Timeline(request: Request, w: World): seq<Stage> {
    var pages, p := PagesFor(request, w), request.profile;
    [Stage(RawStage, true, [], [Original])]
    + ThumbStages(p.thumbOriginal, Original, Original, w.originalThumb)
    + [Stage(PageStage, true, [Original], PageIdsOf(pages, PageSingle(w.page)))]
    + WorkStages(p, pages, PageSingle(w.page), w.outputs, |pages|)
    + [Stage(FinalStage, true, FinalIdsOf(pages), [])]
  }

  /** The original, the laser image if there is one, and the original's thumbnail if it is enabled
      and there is a file for it. */
  predicate OriginalFiles(request: Request, w: World, assets: seq<Asset>) {
    var laser := LaserPath(request.raw, w.raw);
    && PathOf(assets, Original) == Some(OriginalOf(request.raw, w.raw))
    && PathOf(assets, Laser) == (if laser == NoPath then None else Some(laser))
    && PathOf(assets, Thumb(Original)) == ThumbFile(request.profile.thumbOriginal, Original, w.originalThumb, None)
  }

  /** The assets that processing one page writes. */
  predicate Mine(x: AssetId, tag: Tag) {
    || x == ColorAsset(tag) || x == FinalAsset(tag)
    || x == Thumb(PageAsset(tag)) || x == Thumb(ColorAsset(tag)) || x == Thumb(FinalAsset(tag))
  }

  /** The files that one processed page shows. */
  predicate PageFiles(p: Profile, o: Output, tag: Tag, a: OutputAnswer, assets: seq<Asset>) {
    && PathOf(assets, ColorAsset(tag)) == Some(o.colorPath) && PathOf(assets, FinalAsset(tag)) == Some(o.finalPath)
    && PathOf(assets, Thumb(PageAsset(tag))) == ThumbFile(p.thumbPage, PageAsset(tag), a.page, None)
    && PathOf(assets, Thumb(ColorAsset(tag))) == ThumbFile(p.thumbColor, ColorAsset(tag), a.colorThumb, None)
    && PathOf(assets, Thumb(FinalAsset(tag))) == ThumbFile(p.thumbFinal, FinalAsset(tag), a.finalThumb, None)
  }

  /** Processing a page writes its own files and nothing else. */
  ghost predicate WritesPage(p: Profile, o: Output, tag: Tag, a: OutputAnswer, before: seq<Asset>, after: seq<Asset>) {
    && PathOf(after, ColorAsset(tag)) == Some(o.colorPath) && PathOf(after, FinalAsset(tag)) == Some(o.finalPath)
    && PathOf(after, Thumb(PageAsset(tag)))
         == ThumbFile(p.thumbPage, PageAsset(tag), a.page, PathOf(before, Thumb(PageAsset(tag))))
    && PathOf(after, Thumb(ColorAsset(tag)))
         == ThumbFile(p.thumbColor, ColorAsset(tag), a.colorThumb, PathOf(before, Thumb(ColorAsset(tag))))
    && PathOf(after, Thumb(FinalAsset(tag)))
         == ThumbFile(p.thumbFinal, FinalAsset(tag), a.finalThumb, PathOf(before, Thumb(FinalAsset(tag))))
    && forall x: AssetId | !Mine(x, tag) :: PathOf(after, x) == PathOf(before, x)
  }

  /** No page has been processed. */
  ghost predicate NoWork(assets: seq<Asset>) {
    forall tag, x | Mine(x, tag) :: PathOf(assets, x) == None
  }

  /** With different tokens the first `n` pages show their files and the others have none yet. */
  ghost predicate FilesUpTo(p: Profile, outputs: seq<Output>, n: nat, single: bool, answers: nat -> OutputAnswer,
                            assets: seq<Asset>)
    requires n <= |outputs|
  {
    DistinctOutputs(outputs) ==>
      && (forall k | 0 <= k < n :: PageFiles(p, outputs[k], TagOf(single, outputs[k].token), answers(k), assets))
      && (forall k, x: AssetId | n <= k < |outputs| && Mine(x, TagOf(single, outputs[k].token)) ::
            PathOf(assets, x) == None)
  }

  predicate DistinctOutputs(outputs: seq<Output>) {
    forall j, k | 0 <= j < k < |outputs| :: outputs[j].token != outputs[k].token
  }

  /** With different tokens every page asset has the file of its page. */
  predicate PageFilesThere(outputs: seq<Output>, assets: seq<Asset>) {
    DistinctOutputs(outputs) ==>
      forall k | 0 <= k < |outputs| :: PathOf(assets, outputs[k].pageId) == Some(outputs[k].pagePath)
  }

  predicate PageIdsAre(outputs: seq<Output>, single: bool) {
    forall k | 0 <= k < |outputs| :: outputs[k].pageId == PageAsset(TagOf(single, outputs[k].token))
  }

  class CapturePipelineContext {
    const request: Request
    var assets: seq<Asset>
    var stages: seq<Stage>
    var outputs: seq<Output>
    var status: RunStatus
    var code: int
    var originalPath: Path
    var laserPath: Path
    ghost var shots: nat      // calls of CaptureStill

    /** What every step keeps. */
    ghost predicate Valid()
      reads this
    {
      && Unique(assets) && Closed(stages, assets)
      && (status == Failed <==> Broken(stages))
      && (status == Open ==> code == OK)
    }

    constructor (request: Request)
      ensures Valid() && this.request == request && assets == [] && stages == [] && outputs == [] && status == Open
                && shots == 0
    {
      this.request := request;
      assets, stages, outputs := [], [], [];
      status, code, originalPath, laserPath, shots := Open, OK, NoPath, NoPath, 0;
    }

    /** Replaces the asset with the same id, or appends. */
    method AddAsset(a: Asset)
      requires Unique(assets)
      modifies this`assets
      ensures Unique(assets) && PathOf(assets, a.id) == Some(a.path)
      ensures OnlyWrites(old(assets), assets, a.id) && Grown(old(assets), assets)
    {
      for k := 0 to |assets|
        invariant assets == old(assets)
        invariant forall j | 0 <= j < k :: assets[j].id != a.id
      {
        if assets[k].id == a.id {
          Written(assets, k, a);
          assets := assets[k := a];
          return;
        }
      }
      Appended(assets, a);
      assets := assets + [a];
    }

    method FinishStage(name: StageName, succeeded: bool, inputs: seq<AssetId>, made: seq<AssetId>)
      requires Closed(stages, assets) && AllThere(inputs, assets) && (succeeded ==> AllThere(made, assets))
      modifies this`stages
      ensures stages == old(stages) + [Stage(name, succeeded, inputs, made)]
      ensures Closed(stages, assets)
      ensures Broken(stages) <==> Broken(old(stages)) || (!succeeded && !name.ThumbStage?)
    {
      OneMoreStage(stages, Stage(name, succeeded, inputs, made), assets);
      stages := stages + [Stage(name, succeeded, inputs, made)];
    }

    method Fail(why: int)
      requires status == Open
      modifies this`status, this`code
      ensures status == Failed && code == why
    {
      status, code := Failed, why;
    }

    /** Uses the image that was captured before, or takes one. */
    method CaptureRaw(a: RawAnswer) returns (ok: bool)
      requires Valid() && status == Open && assets == [] && stages == [] && outputs == []
      modifies this
      ensures Valid() && outputs == [] && status == (if ok then Open else Failed)
      ensures ok ==> Has(assets, Original)
      ensures ok <==> RawWorks(request.raw, a)
      ensures ok ==>
                && originalPath == OriginalOf(request.raw, a)
                && laserPath == LaserPath(request.raw, a)
                && PathOf(assets, Original) == Some(originalPath)
                && PathOf(assets, Laser) == (if laserPath == NoPath then None else Some(laserPath))
                && (forall x: AssetId | x != Original && x != Laser :: PathOf(assets, x) == None)
                && stages == [Stage(RawStage, true, [], [Original])]
      ensures shots == old(shots) + (if request.raw.captured then 0 else 1)
      ensures !ok && code == OK <==> !request.raw.captured && a.shot.code == OK && !a.shot.captured
    {
      hide OnlyWrites, Grown, Closed, Broken;
      if request.raw.captured {
        originalPath := Own(Original);
        var source := request.raw.original;
        if source == NoPath {
          FinishStage(RawStage, false, [], []);
          Fail(CAPTURE_FAILED);
          return false;
        }
        if source != originalPath && !a.copied {
          FinishStage(RawStage, false, [], []);
          Fail(PROVIDER_CALL_FAILED);
          return false;
        }
        if source == originalPath && !a.exists_ {
          FinishStage(RawStage, false, [], []);
          Fail(CAPTURE_FAILED);
          return false;
        }
        laserPath := NoPath;
        if request.raw.laser != NoPath {
          laserPath := Own(Laser);
          if request.raw.laser != laserPath && !a.laserCopied {
            FinishStage(RawStage, false, [], []);
            Fail(PROVIDER_CALL_FAILED);
            return false;
          }
        }
      } else {
        shots := shots + 1;
        if a.shot.code != OK || !a.shot.captured {
          FinishStage(RawStage, false, [], []);
          Fail(a.shot.code);
          return false;
        }
        originalPath, laserPath := a.shot.original, a.shot.laser;
      }
      AddAndKeep(Asset(Original, originalPath));
      ghost var before := assets;
      if laserPath != NoPath {
        AddAndKeep(Asset(Laser, laserPath));
      } else {
        Nothing(assets, Laser);
      }
      TwoAssets(before, assets);
      FinishStage(RawStage, true, [], [Original]);
      return true;
    }

    /** AddAsset between two stages. */
    method AddAndKeep(a: Asset)
      requires Unique(assets) && Closed(stages, assets)
      modifies this`assets
      ensures Unique(assets) && Closed(stages, assets)
      ensures PathOf(assets, a.id) == Some(a.path) && Has(assets, a.id)
      ensures OnlyWrites(old(assets), assets, a.id) && Grown(old(assets), assets)
      ensures forall id: AssetId :: Has(old(assets), id) ==> Has(assets, id)
    {
      AddAsset(a);
      StillClosed(stages, old(assets), assets);
    }

    /** A thumbnail of asset `of`, named after `shown`: generated, or a copy, or a failed stage
        that fails nothing else. */
    method GenerateThumbnail(enabled: bool, of: AssetId, shown: AssetId, input: Path, a: ThumbAnswer)
      requires Valid() && Has(assets, of)
      modifies this`assets, this`stages
      ensures Valid() && OnlyWrites(old(assets), assets, Thumb(shown)) && Grown(old(assets), assets)
      ensures stages == old(stages) + ThumbStages(enabled, of, shown, a)
      ensures PathOf(assets, Thumb(shown)) == ThumbFile(enabled, shown, a, PathOf(old(assets), Thumb(shown)))
    {
      hide OnlyWrites, Closed, Broken, Unique, Grown;
      if !enabled {
        Nothing(assets, Thumb(shown));
        return;
      }
      var path := Or(a.path, Own(Thumb(shown)));
      if a.code == OK && a.generated && a.exists_ {
        AddAndKeep(Asset(Thumb(shown), path));
        FinishStage(ThumbStage(shown), true, [of], [Thumb(shown)]);
        return;
      }
      if !a.copied {
        Nothing(assets, Thumb(shown));
        FinishStage(ThumbStage(shown), false, [of], []);
        return;
      }
      AddAndKeep(Asset(Thumb(shown), Own(Thumb(shown))));
      FinishStage(ThumbStage(shown), true, [of], [Thumb(shown)]);
    }

    /** One page of the provider. */
    method AddPageOutputFromProvider(id: string, path: Path, single: bool)
      requires Valid() && PagesThere(outputs, assets)
      modifies this`assets, this`outputs
      ensures Valid() && PagesThere(outputs, assets) && Grown(old(assets), assets)
      ensures var token := SanitizedOr(id, "page-" + Decimal(|old(outputs)| + 1));
              outputs == old(outputs)
                  + [Output(token, PageAsset(TagOf(single, token)), path, None, NoPath, None, NoPath)]
              && OnlyWrites(old(assets), assets, PageAsset(TagOf(single, token)))
              && PathOf(assets, PageAsset(TagOf(single, token))) == Some(path)
    {
      hide OnlyWrites, Closed, Broken, SanitizedOr, Decimal;
      var token := SanitizedOr(id, "page-" + Decimal(|outputs| + 1));
      var pageId := PageAsset(TagOf(single, token));
      AddAndKeep(Asset(pageId, path));
      outputs := outputs + [Output(token, pageId, path, None, NoPath, None, NoPath)];
    }

    /** Falls back to the original image, or takes the pages of the provider; fails only if the
        provider names pages and none has a file. */
    method PageProcess(a: PageAnswer) returns (ok: bool)
      requires Valid() && status == Open && Has(assets, Original) && outputs == []
      modifies this`assets, this`stages, this`outputs, this`status, this`code
      ensures Valid() && status == (if ok then Open else Failed) && Grown(old(assets), assets)
      ensures ok ==> outputs != [] && PagesThere(outputs, assets)
      ensures !ok ==> code == PROVIDER_CALL_FAILED
      ensures ok <==> PageWorks(a)
      ensures ok ==> Named(outputs) == ExpectedPages(a, originalPath)
      ensures ok ==>
                && stages == old(stages) + [Stage(PageStage, true, [Original], PageIds(outputs))]
                && PageIdsAre(outputs, PageSingle(a)) && PageFilesThere(outputs, assets)
                && (forall x: AssetId | !x.PageAsset? :: PathOf(assets, x) == PathOf(old(assets), x))
      ensures ok ==> forall k | 0 <= k < |outputs| :: outputs[k].finalId == None
    {
      hide OnlyWrites, Closed, Broken, SanitizedOr, Decimal, PagesOf, Unique, PageFilesThere, PageIdsAre;
      SanitizedPage001();
      NoPageYet(assets);
      SomePage(a.pages);
      if a.code != OK || a.unsupported || !a.processed {
        OriginalAsPage();
        return true;
      }
      outputs := [];
      if a.pages != [] {
        NoPages();
        for k := 0 to |a.pages|
          invariant Valid() && status == Open && PagesThere(outputs, assets) && Grown(old(assets), assets)
          invariant stages == old(stages) && code == old(code)
          invariant Named(outputs) == PagesOf(a.pages[..k])
          invariant forall j | 0 <= j < |outputs| :: outputs[j].finalId == None
          invariant PageIdsAre(outputs, |a.pages| == 1) && PageFilesThere(outputs, assets) && |outputs| <= k
          invariant forall x: AssetId | !x.PageAsset? :: PathOf(assets, x) == PathOf(old(assets), x)
        {
          OneMorePage(a.pages, k);
          if a.pages[k].path == NoPath { continue; }
          ghost var before, was := outputs, assets;
          AddPageOutputFromProvider(a.pages[k].id, a.pages[k].path, |a.pages| == 1);
          PageWritten(before, outputs, k, |a.pages| == 1, was, assets);
        }
        assert a.pages[..|a.pages|] == a.pages;
      } else {
        AddPageOutputFromProvider("page-001", Or(a.path, Own(PageAsset(None))), true);
        PageWritten([], outputs, 0, true, old(assets), assets);
      }
      if outputs == [] {
        FinishStage(PageStage, false, [Original], []);
        Fail(PROVIDER_CALL_FAILED);
        return false;
      }
      FinishStage(PageStage, true, [Original], PageIds(outputs));
      return true;
    }

    /** The provider did not process the image: the original is the only page. */
    method OriginalAsPage()
      requires Valid() && status == Open && Has(assets, Original) && outputs == []
      modifies this`assets, this`stages, this`outputs
      ensures Valid() && Grown(old(assets), assets)
      ensures outputs == [Output("page-001", PageAsset(None), originalPath, None, NoPath, None, NoPath)]
      ensures stages == old(stages) + [Stage(PageStage, true, [Original], PageIds(outputs))]
      ensures PagesThere(outputs, assets) && PageIdsAre(outputs, true) && PageFilesThere(outputs, assets)
      ensures forall x: AssetId | !x.PageAsset? :: PathOf(assets, x) == PathOf(old(assets), x)
    {
      hide OnlyWrites, Closed, Broken, SanitizedOr, Decimal, PagesOf, Unique, PageFilesThere, PageIdsAre;
      NoPageYet(assets);
      var output := Output("page-001", PageAsset(None), originalPath, None, NoPath, None, NoPath);
      outputs := [output];
      // the stage is finished before its output exists
      stages := stages + [Stage(PageStage, true, [Original], [PageAsset(None)])];
      AddAsset(Asset(PageAsset(None), originalPath));
      LateAsset(old(stages), stages[|old(stages)|], old(assets), assets);
      PageWritten([], outputs, 0, true, old(assets), assets);
      assert PageIds(outputs) == [PageAsset(None)];
    }

    /** Colour mode never fails: it falls back to the page. */
    method ApplyColorModeForOutput(i: nat, single: bool, a: ColorAnswer)
      requires Valid() && i < |outputs| && Has(assets, outputs[i].pageId)
      modifies this`assets, this`stages, this`outputs
      ensures Valid() && Grown(old(assets), assets)
      ensures var id := ColorAsset(TagOf(single, old(outputs)[i].token));
              && OnlyWrites(old(assets), assets, id) && Has(assets, id)
              && outputs == old(outputs)[i := old(outputs)[i].(
                   colorId := Some(id),
                   colorPath := if ColorFallsBack(a) then old(outputs)[i].pagePath else Or(a.path, Own(id)))]
              && PathOf(assets, id) == Some(outputs[i].colorPath)
              && stages == old(stages)
                   + [Stage(ColorStage(TagOf(single, old(outputs)[i].token)), true, [old(outputs)[i].pageId], [id])]
    {
      hide OnlyWrites, Closed, Broken, Unique, Grown;
      var output := outputs[i];
      var tag := TagOf(single, output.token);
      if a.code != OK || a.unsupported || !a.processed {
        output := output.(colorPath := output.pagePath);
      } else {
        output := output.(colorPath := Or(a.path, Own(ColorAsset(tag))));
      }
      output := output.(colorId := Some(ColorAsset(tag)));
      AddAndKeep(Asset(ColorAsset(tag), output.colorPath));
      outputs := outputs[i := output];
      FinishStage(ColorStage(tag), true, [output.pageId], [ColorAsset(tag)]);
    }

    method FormatConvertForOutput(i: nat, single: bool, a: FormatAnswer) returns (ok: bool)
      requires Valid() && status == Open && i < |outputs| && outputs[i].colorId.Some?
                 && Has(assets, outputs[i].colorId.value)
      modifies this`assets, this`stages, this`outputs, this`status, this`code
      ensures Valid() && Grown(old(assets), assets) && status == (if ok then Open else Failed)
      ensures ok <==> !Converts(request.profile, a) || (a.code == OK && (a.converted || a.passthrough))
      ensures !ok ==> code == a.code && outputs == old(outputs)
      ensures ok ==>
                var o := old(outputs)[i];
                var id := FinalAsset(TagOf(single, o.token));
                var path := if Converts(request.profile, a) then Or(a.path, Own(id)) else o.colorPath;
                && outputs == old(outputs)[i := o.(finalId := Some(id), finalPath := path)]
                && PathOf(assets, id) == Some(path) && OnlyWrites(old(assets), assets, id)
                && stages == old(stages)
                     + [Stage(FormatStage(TagOf(single, o.token)), true, [o.colorId.value], [id])]
    {
      hide OnlyWrites, Closed, Broken, Unique, Grown;
      var output := outputs[i];
      var tag := TagOf(single, output.token);
      if a.sameFormat && !request.profile.needsScale && !request.profile.needsQuality {
        output := output.(finalPath := output.colorPath);
      } else {
        if a.code != OK || (!a.converted && !a.passthrough) {
          FinishStage(FormatStage(tag), false, [output.colorId.value], []);
          Fail(a.code);
          Nothing(assets, FinalAsset(tag));
          return false;
        }
        output := output.(finalPath := Or(a.path, Own(FinalAsset(tag))));
      }
      output := output.(finalId := Some(FinalAsset(tag)));
      AddAndKeep(Asset(FinalAsset(tag), output.finalPath));
      outputs := outputs[i := output];
      FinishStage(FormatStage(tag), true, [output.colorId.value], [FinalAsset(tag)]);
      return true;
    }

    /** Page thumbnail, colour mode, colour thumbnail, format, final thumbnail: one output. */
    method ProcessOutput(i: nat, single: bool, a: OutputAnswer) returns (ok: bool)
      requires Valid() && status == Open && i < |outputs| && PagesThere(outputs, assets)
      modifies this`assets, this`stages, this`outputs, this`status, this`code
      ensures Valid() && Grown(old(assets), assets) && status == (if ok then Open else Failed)
      ensures |outputs| == |old(outputs)| && forall k | 0 <= k < |outputs| && k != i :: outputs[k] == old(outputs)[k]
      ensures var o, o' := old(outputs)[i], outputs[i];
              o'.token == o.token && o'.pageId == o.pageId && o'.pagePath == o.pagePath
      ensures ok <==> FormatWorks(request.profile, a.format)
      ensures !ok ==> code == a.format.code
      ensures ok ==>
                && outputs[i].finalId == Some(FinalAsset(TagOf(single, outputs[i].token)))
                && PathOf(assets, outputs[i].finalId.value) == Some(outputs[i].finalPath)
                && outputs[i].finalPath
                     == FinalPathOf(request.profile, single, NamedPage(outputs[i].token, outputs[i].pagePath), a)
                && outputs[i].colorPath == ColorPathOf(single, NamedPage(outputs[i].token, outputs[i].pagePath), a)
                && stages == old(stages)
                     + OutputStages(request.profile, TagOf(single, outputs[i].token), outputs[i].pageId, a)
                && WritesPage(request.profile, outputs[i], TagOf(single, outputs[i].token), a, old(assets), assets)
    {
      hide Closed, Broken, Unique, Has, OnlyWrites, WritesPage, OutputStages, ThumbStages, ThumbFile, Grown;
      ghost var a0, s0 := assets, stages;
      var tag := TagOf(single, outputs[i].token);   // the page asset itself may have another tag
      GenerateThumbnail(request.profile.thumbPage, outputs[i].pageId, PageAsset(tag), outputs[i].pagePath, a.page);
      ghost var a1 := assets;
      StillHas(a0, a1, outputs[i].pageId);
      ApplyColorModeForOutput(i, single, a.color);
      ghost var a2 := assets;
      var color := outputs[i].colorId.value;
      GenerateThumbnail(request.profile.thumbColor, color, ColorAsset(tag), outputs[i].colorPath, a.colorThumb);
      ghost var a3 := assets;
      StillHas(a2, a3, color);
      GrownAll(a0, a1, a2, a3);
      ok := FormatConvertForOutput(i, single, a.format);
      ghost var a4 := assets;
      GrownTwo(a0, a3, a4);
      if !ok { return false; }
      var final := outputs[i].finalId.value;
      GenerateThumbnail(request.profile.thumbFinal, final, FinalAsset(tag), outputs[i].finalPath, a.finalThumb);
      GrownTwo(a0, a4, assets);
      FilesCompose(request.profile, outputs[i], tag, a, a0, a1, a2, a3, a4, assets);
      StagesCompose(request.profile, tag, outputs[i].pageId, a, s0);
    }

    method ProcessOutputWorkflow(answers: nat -> OutputAnswer, ghost pageSingle: bool) returns (ok: bool)
      requires Valid() && status == Open && PagesThere(outputs, assets)
      requires PageIdsAre(outputs, pageSingle) && NoWork(assets)
      modifies this`assets, this`stages, this`outputs, this`status, this`code
      ensures Valid() && status == (if ok then Open else Failed) && |outputs| == |old(outputs)|
      ensures Named(outputs) == Named(old(outputs))
      ensures ok ==> Finished(outputs, |outputs|, |outputs| <= 1, assets)
      ensures ok ==> Converted(request.profile, outputs, |outputs|, |outputs| <= 1, answers)
      ensures ok ==> LastShown(outputs, |outputs|, assets)
      ensures ok ==>
                stages == old(stages) + WorkStages(request.profile, Named(outputs), pageSingle, answers, |outputs|)
      ensures ok ==> FilesUpTo(request.profile, outputs, |outputs|, |outputs| <= 1, answers, assets)
      ensures ok ==> PageIdsAre(outputs, pageSingle)
      ensures ok ==> forall x: AssetId | Untouched(x) :: PathOf(assets, x) == PathOf(old(assets), x)
      ensures ok <==> forall k | 0 <= k < |outputs| :: FormatWorks(request.profile, answers(k).format)
      ensures !ok ==>
                exists k | 0 <= k < |outputs| ::
                  FailsFirst(request.profile, answers, k) && code == answers(k).format.code
    {
      hide Closed, Broken, Unique, Has, OnlyWrites, LastShown, Finished, PagesThere, WorkStages, FilesUpTo, WritesPage;
      hide NoWork, PageIdsAre, OutputStages, Converted;
      var single := |outputs| <= 1;
      NoneYet(outputs, single, assets);
      NothingConverted(request.profile, outputs, single, answers);
      NoFilesYet(request.profile, outputs, single, answers, assets);
      NoStagesYet(request.profile, Named(outputs), pageSingle, answers, stages);
      for i := 0 to |outputs|
        invariant |outputs| == |old(outputs)| && Valid() && status == Open && PagesThere(outputs, assets)
        invariant forall k | 0 <= k < |outputs| ::
                    outputs[k].token == old(outputs)[k].token && outputs[k].pagePath == old(outputs)[k].pagePath
        invariant Converted(request.profile, outputs, i, single, answers)
        invariant Finished(outputs, i, single, assets)
        invariant LastShown(outputs, i, assets)
        invariant Named(outputs) == Named(old(outputs)) && PageIdsAre(outputs, pageSingle)
        invariant stages == old(stages) + WorkStages(request.profile, Named(outputs), pageSingle, answers, i)
        invariant FilesUpTo(request.profile, outputs, i, single, answers, assets)
        invariant forall x: AssetId | Untouched(x) :: PathOf(assets, x) == PathOf(old(assets), x)
        invariant forall k | 0 <= k < i :: FormatWorks(request.profile, answers(k).format)
      {
        ghost var before, was := outputs, assets;
        ok := ProcessOutput(i, single, answers(i));
        if !ok {
          assert FailsFirst(request.profile, answers, i);
          return false;
        }
        PagesStay(before, outputs, i, was, assets);
        FinishedMore(before, outputs, i, single, was, assets);
        OthersFinal(request.profile, outputs[i], TagOf(single, outputs[i].token), answers(i), was, assets);
        LastShownMore(before, outputs, i, single, was, assets);
        SameNames(before, outputs, i, pageSingle);
        ConvertedMore(request.profile, before, outputs, i, single, answers);
        FilesMore(request.profile, before, outputs, i, single, answers, was, assets);
        StagesMore(request.profile, outputs, pageSingle, answers, i, old(stages));
      }
      return true;
    }

    method FinalizeResult()
      requires Valid() && status == Open && Finished(outputs, |outputs|, |outputs| <= 1, assets)
      modifies this`stages, this`status, this`code
      ensures Valid() && status == Succeeded && code == OK
      ensures stages == old(stages) + [Stage(FinalStage, true, FinalIds(outputs), [])]
    {
      FinishStage(FinalStage, true, FinalIds(outputs), []);
      code, status := OK, Succeeded;
    }

    /** The first half of a run: the image, its thumbnail, the pages. */
    method MakePages(w: World) returns (ok: bool)
      requires Valid() && status == Open && assets == [] && stages == [] && outputs == []
      modifies this
      ensures Valid() && status == (if ok then Open else Failed)
      ensures ok <==> RawWorks(request.raw, w.raw) && PageWorks(w.page)
      ensures !ok && code == OK <==> !request.raw.captured && w.raw.shot.code == OK && !w.raw.shot.captured
      ensures ok ==>
                && outputs != [] && PagesThere(outputs, assets) && Named(outputs) == PagesFor(request, w)
                && PageIdsAre(outputs, PageSingle(w.page)) && PageFilesThere(outputs, assets) && NoWork(assets)
                && stages == [Stage(RawStage, true, [], [Original])]
                     + ThumbStages(request.profile.thumbOriginal, Original, Original, w.originalThumb)
                     + [Stage(PageStage, true, [Original], PageIdsOf(PagesFor(request, w), PageSingle(w.page)))]
                && OriginalFiles(request, w, assets)
      ensures shots == old(shots) + (if request.raw.captured then 0 else 1)
    {
      hide Closed, Broken, Unique, Has, OnlyWrites, PagesThere, ExpectedPages, RawWorks, PageWorks;
      hide NoWork, PageIdsAre, PageFilesThere, ThumbFile, ThumbStages;
      ok := CaptureRaw(w.raw);
      QuietShotFails(request.raw, w.raw);
      if !ok { return false; }
      ghost var a0 := assets;
      GenerateThumbnail(request.profile.thumbOriginal, Original, Original, originalPath, w.originalThumb);
      KeepsOriginal(a0, assets);
      ghost var a1 := assets;
      ThumbOnly(a0, a1, Thumb(Original));
      ok := PageProcess(w.page);
      if ok {
        NoWorkYet(a0, a1, assets);
        IdsFromNames(outputs, PagesFor(request, w), PageSingle(w.page));
      }
    }

    /** The whole run: CapturePipelineService::Run. */
    method Run(w: World) returns (result: Result)
      requires Valid() && status == Open && assets == [] && stages == [] && outputs == []
      modifies this
      ensures result.assets == assets && result.stages == stages
      ensures Unique(result.assets) && Closed(result.stages, result.assets)
      ensures result.status == Succeeded || result.status == Failed
      // a run fails iff a stage fails that is no thumbnail
      ensures result.status == Failed <==> Broken(result.stages)
      ensures result.status == Succeeded ==>
                && result.code == OK && outputs != [] && Named(outputs) == PagesFor(request, w)
                && Finished(outputs, |outputs|, |outputs| <= 1, result.assets)
                && Converted(request.profile, outputs, |outputs|, |outputs| <= 1, w.outputs)
                && LastShown(outputs, |outputs|, result.assets)
      // the stages are exactly those that the profile and the answers call for
      ensures result.status == Succeeded ==> result.stages == Timeline(request, w)
      // with different tokens every file of every page is there, each enabled thumbnail included
      ensures result.status == Succeeded && DistinctTokens(PagesFor(request, w)) ==>
                forall k | 0 <= k < |outputs| ::
                  && PathOf(result.assets, outputs[k].pageId) == Some(outputs[k].pagePath)
                  && PageFiles(request.profile, outputs[k], TagOf(|outputs| <= 1, outputs[k].token), w.outputs(k),
                               result.assets)
      ensures result.status == Succeeded ==> OriginalFiles(request, w, result.assets)
      // pages keep their final assets apart, and find their files there, iff their tokens differ
      ensures result.status == Succeeded ==>
                && (Apart(outputs) <==> DistinctTokens(PagesFor(request, w)))
                && (DistinctTokens(PagesFor(request, w)) ==> Faithful(outputs, result.assets))
      // a run succeeds exactly when there is an image, a page, and a final file for every page:
      // neither a thumbnail nor the colour mode can fail it
      ensures result.status == Succeeded <==>
                && RawWorks(request.raw, w.raw) && PageWorks(w.page)
                && forall k | 0 <= k < |PagesFor(request, w)| :: FormatWorks(request.profile, w.outputs(k).format)
      // exactly which failures carry the code for success
      ensures result.status == Failed && result.code == OK <==> FailsQuietly(request, w)
      ensures shots == old(shots) + (if request.raw.captured then 0 else 1)
    {
      hide Closed, Broken, Unique, Has, OnlyWrites, Finished, LastShown, Faithful, Apart, DistinctTokens;
      hide PagesThere, QuietFormat, ExpectedPages, RawWorks, PageWorks, FormatWorks, FailsFirst, Converted;
      hide NoWork, PageIdsAre, WorkStages, FilesUpTo, PageFilesThere, PageFiles, ThumbFile, ThumbStages,
          DistinctOutputs;
      hide OriginalFiles;
      var ok := MakePages(w);
      ghost var a2, before := assets, outputs;
      QuietShotFails(request.raw, w.raw);
      if ok {
        ok := ProcessOutputWorkflow(w.outputs, PageSingle(w.page));
        QuietIffCode(request, w, ok, code);
      }
      if ok {
        SamePages(outputs, PagesFor(request, w), assets);
        SameTokens(outputs, PagesFor(request, w));
        PageFilesStay(before, outputs, PageSingle(w.page), a2, assets);
        FinalIdsFromNames(outputs, PagesFor(request, w), assets);
        AllFiles(request.profile, outputs, |outputs| <= 1, w.outputs, assets);
        OriginalStays(request, w, a2, assets);
        FinalizeResult();
      }
      result := Result(status, code, assets, stages);
      if !ok && result.status != Failed {
        result := result.(status := Failed, code := PROVIDER_CALL_FAILED);
      }
    }
  }

  /** There is an original image, staged where it has to be. */
  predicate RawWorks(raw: Raw, a: RawAnswer) {
    if raw.captured then
      && raw.original != NoPath
      && (if raw.original == Own(Original) then a.exists_ else a.copied)
      && (raw.laser == NoPath || raw.laser == Own(Laser) || a.laserCopied)
    else a.shot.code == OK && a.shot.captured
  }

  function OriginalOf(raw: Raw, a: RawAnswer): Path {
    if raw.captured then Own(Original) else a.shot.original
  }

  function LaserPath(raw: Raw, a: RawAnswer): Path {
    if !raw.captured then a.shot.laser else if raw.laser == NoPath then NoPath else Own(Laser)
  }

  /** The provider falls back to the original or delivers at least one page with a file. */
  predicate PageWorks(a: PageAnswer) {
    PageFallsBack(a) || a.pages == [] || exists k :: 0 <= k < |a.pages| && a.pages[k].path != NoPath
  }

  lemma {:induction false} SomePage(pages: seq<ProviderPage>)
    ensures PagesOf(pages) != [] <==> exists k :: 0 <= k < |pages| && pages[k].path != NoPath
  {
    if pages != [] {
      var n := |pages| - 1;
      SomePage(pages[..n]);
      if k :| 0 <= k < n && pages[k].path != NoPath {
        assert pages[..n][k] == pages[k];
      }
    }
  }

  predicate PageFallsBack(a: PageAnswer) {
    a.code != OK || a.unsupported || !a.processed
  }

  predicate Generates(a: ThumbAnswer) {
    a.code == OK && a.generated && a.exists_
  }

  predicate ColorFallsBack(a: ColorAnswer) {
    a.code != OK || a.unsupported || !a.processed
  }

  predicate Converts(p: Profile, a: FormatAnswer) {
    !a.sameFormat || p.needsScale || p.needsQuality
  }

  predicate FormatWorks(p: Profile, a: FormatAnswer) {
    !Converts(p, a) || (a.code == OK && (a.converted || a.passthrough))
  }

  function Named(outputs: seq<Output>): (pages: seq<NamedPage>)
    ensures |pages| == |outputs|
  {
    seq(|outputs|, i requires 0 <= i < |outputs| => NamedPage(outputs[i].token, outputs[i].pagePath))
  }

  lemma SanitizedPage001()
    ensures SanitizedOr("page-001", "page-" + Decimal(1)) == "page-001"
  {
    TokenOfToken("page-001");
  }

  function PageIds(outputs: seq<Output>): (ids: seq<AssetId>)
    ensures |ids| == |outputs| && forall k | 0 <= k < |ids| :: ids[k] == outputs[k].pageId
  {
    seq(|outputs|, i requires 0 <= i < |outputs| => outputs[i].pageId)
  }

  function FinalIds(outputs: seq<Output>): (ids: seq<AssetId>)
    requires forall k | 0 <= k < |outputs| :: outputs[k].finalId.Some?
    ensures |ids| == |outputs| && forall k | 0 <= k < |ids| :: ids[k] == outputs[k].finalId.value
  {
    seq(|outputs|, i requires 0 <= i < |outputs| => outputs[i].finalId.value)
  }

  // ----- writing assets one after the other

  lemma TwoAssets(before: seq<Asset>, after: seq<Asset>)
    requires OnlyWrites([], before, Original) && OnlyWrites(before, after, Laser)
    ensures PathOf(after, Original) == PathOf(before, Original)
    ensures forall x: AssetId | x != Original && x != Laser :: PathOf(after, x) == None
    ensures PathOf(before, Laser) == None
  {
  }

  lemma StillHas(before: seq<Asset>, after: seq<Asset>, id: AssetId)
    requires Grown(before, after) && Has(before, id)
    ensures Has(after, id)
  {
  }

  lemma GrownAll(a: seq<Asset>, b: seq<Asset>, c: seq<Asset>, d: seq<Asset>)
    requires Grown(a, b) && Grown(b, c) && Grown(c, d)
    ensures Grown(a, d)
  {
    hide Has;
  }

  lemma GrownTwo(a: seq<Asset>, b: seq<Asset>, c: seq<Asset>)
    requires Grown(a, b) && Grown(b, c)
    ensures Grown(a, c)
  {
    hide Has;
  }

  lemma Keep(a: seq<Asset>, b: seq<Asset>, id: AssetId, x: AssetId)
    requires OnlyWrites(a, b, id) && x != id
    ensures PathOf(b, x) == PathOf(a, x)
  {
  }

  lemma FilesCompose(p: Profile, o: Output, tag: Tag, a: OutputAnswer, a0: seq<Asset>, a1: seq<Asset>, a2: seq<Asset>,
                     a3: seq<Asset>, a4: seq<Asset>, a5: seq<Asset>)
    requires OnlyWrites(a0, a1, Thumb(PageAsset(tag))) && OnlyWrites(a1, a2, ColorAsset(tag))
    requires OnlyWrites(a2, a3, Thumb(ColorAsset(tag))) && OnlyWrites(a3, a4, FinalAsset(tag))
    requires OnlyWrites(a4, a5, Thumb(FinalAsset(tag)))
    requires PathOf(a1, Thumb(PageAsset(tag)))
               == ThumbFile(p.thumbPage, PageAsset(tag), a.page, PathOf(a0, Thumb(PageAsset(tag))))
    requires PathOf(a2, ColorAsset(tag)) == Some(o.colorPath)
    requires PathOf(a3, Thumb(ColorAsset(tag)))
               == ThumbFile(p.thumbColor, ColorAsset(tag), a.colorThumb, PathOf(a2, Thumb(ColorAsset(tag))))
    requires PathOf(a4, FinalAsset(tag)) == Some(o.finalPath)
    requires PathOf(a5, Thumb(FinalAsset(tag)))
               == ThumbFile(p.thumbFinal, FinalAsset(tag), a.finalThumb, PathOf(a4, Thumb(FinalAsset(tag))))
    ensures WritesPage(p, o, tag, a, a0, a5) && PathOf(a5, FinalAsset(tag)) == Some(o.finalPath)
  {
    hide ThumbFile, PathOf, OnlyWrites, Mine;
    var page, color, final := Thumb(PageAsset(tag)), Thumb(ColorAsset(tag)), Thumb(FinalAsset(tag));
    KeptBy(a1, a2, a3, a4, a5, tag, page);
    KeptBy(a3, a3, a3, a4, a5, tag, color);
    ColorKept(a2, a3, a4, a5, tag);
    Keep(a4, a5, final, FinalAsset(tag));
    ThumbsNotYet(a0, a1, a2, a3, a4, tag);
    forall x: AssetId | !Mine(x, tag) ensures PathOf(a5, x) == PathOf(a0, x) {
      NotMine(x, tag);
      OtherKept(a0, a1, a2, a3, a4, a5, tag, x);
    }
  }

  lemma ColorKept(a2: seq<Asset>, a3: seq<Asset>, a4: seq<Asset>, a5: seq<Asset>, tag: Tag)
    requires OnlyWrites(a2, a3, Thumb(ColorAsset(tag))) && OnlyWrites(a3, a4, FinalAsset(tag))
    requires OnlyWrites(a4, a5, Thumb(FinalAsset(tag)))
    ensures PathOf(a5, ColorAsset(tag)) == PathOf(a2, ColorAsset(tag))
  {
    hide PathOf;
  }

  /** The thumbnails of colour and result before their own step. */
  lemma ThumbsNotYet(a0: seq<Asset>, a1: seq<Asset>, a2: seq<Asset>, a3: seq<Asset>, a4: seq<Asset>, tag: Tag)
    requires OnlyWrites(a0, a1, Thumb(PageAsset(tag))) && OnlyWrites(a1, a2, ColorAsset(tag))
    requires OnlyWrites(a2, a3, Thumb(ColorAsset(tag))) && OnlyWrites(a3, a4, FinalAsset(tag))
    ensures PathOf(a2, Thumb(ColorAsset(tag))) == PathOf(a0, Thumb(ColorAsset(tag)))
    ensures PathOf(a4, Thumb(FinalAsset(tag))) == PathOf(a0, Thumb(FinalAsset(tag)))
  {
    hide PathOf;
  }

  lemma OtherKept(a0: seq<Asset>, a1: seq<Asset>, a2: seq<Asset>, a3: seq<Asset>, a4: seq<Asset>, a5: seq<Asset>,
                  tag: Tag, x: AssetId)
    requires OnlyWrites(a0, a1, Thumb(PageAsset(tag))) && OnlyWrites(a1, a2, ColorAsset(tag))
    requires OnlyWrites(a2, a3, Thumb(ColorAsset(tag))) && OnlyWrites(a3, a4, FinalAsset(tag))
    requires OnlyWrites(a4, a5, Thumb(FinalAsset(tag)))
    requires x != ColorAsset(tag) && x != FinalAsset(tag)
    requires x != Thumb(PageAsset(tag)) && x != Thumb(ColorAsset(tag)) && x != Thumb(FinalAsset(tag))
    ensures PathOf(a5, x) == PathOf(a0, x)
  {
    hide PathOf;
  }

  lemma NotMine(x: AssetId, tag: Tag)
    requires !Mine(x, tag)
    ensures x != ColorAsset(tag) && x != FinalAsset(tag)
    ensures x != Thumb(PageAsset(tag)) && x != Thumb(ColorAsset(tag)) && x != Thumb(FinalAsset(tag))
  {
  }

  /** A thumbnail that none of these steps writes. */
  lemma KeptBy(a1: seq<Asset>, a2: seq<Asset>, a3: seq<Asset>, a4: seq<Asset>, a5: seq<Asset>, tag: Tag, x: AssetId)
    requires a1 == a2 || OnlyWrites(a1, a2, ColorAsset(tag))
    requires a2 == a3 || OnlyWrites(a2, a3, Thumb(ColorAsset(tag)))
    requires OnlyWrites(a3, a4, FinalAsset(tag)) && OnlyWrites(a4, a5, Thumb(FinalAsset(tag)))
    requires x == Thumb(PageAsset(tag)) || (x == Thumb(ColorAsset(tag)) && a2 == a3)
    ensures PathOf(a5, x) == PathOf(a1, x)
  {
    hide PathOf;
  }

  lemma StagesCompose(p: Profile, tag: Tag, pageId: AssetId, a: OutputAnswer, s: seq<Stage>)
    ensures s + ThumbStages(p.thumbPage, pageId, PageAsset(tag), a.page)
              + [Stage(ColorStage(tag), true, [pageId], [ColorAsset(tag)])]
              + ThumbStages(p.thumbColor, ColorAsset(tag), ColorAsset(tag), a.colorThumb)
              + [Stage(FormatStage(tag), true, [ColorAsset(tag)], [FinalAsset(tag)])]
              + ThumbStages(p.thumbFinal, FinalAsset(tag), FinalAsset(tag), a.finalThumb)
            == s + OutputStages(p, tag, pageId, a)
  {
    hide ThumbStages;
  }

  lemma NoPageYet(assets: seq<Asset>)
    ensures PageFilesThere([], assets) && PageIdsAre([], true) && PageIdsAre([], false)
  {
  }

  /** A new page is added with its asset. */
  lemma PageWritten(before: seq<Output>, after: seq<Output>, k: nat, single: bool, was: seq<Asset>, now: seq<Asset>)
    requires |after| == |before| + 1 && after[..|before|] == before
    requires PageIdsAre(before, single) && PageFilesThere(before, was) && (single ==> before == [])
    requires var o := after[|before|];
             && o.pageId == PageAsset(TagOf(single, o.token))
             && OnlyWrites(was, now, o.pageId) && PathOf(now, o.pageId) == Some(o.pagePath)
    ensures PageIdsAre(after, single) && PageFilesThere(after, now)
    ensures forall x: AssetId | !x.PageAsset? :: PathOf(now, x) == PathOf(was, x)
  {
    hide PathOf;
    var n := |before|;
    assert forall j | 0 <= j < n :: after[j] == before[j];
    if DistinctOutputs(after) {
      assert DistinctOutputs(before);
      forall j | 0 <= j < |after| ensures PathOf(now, after[j].pageId) == Some(after[j].pagePath) {
        if j < n { assert after[j].token != after[n].token && after[j].pageId != after[n].pageId; }
      }
    }
  }

  /** What the workflow leaves alone: everything but colour, final and thumbnail assets of pages. */
  predicate Untouched(x: AssetId) {
    x.Original? || x.Laser? || x.PageAsset? || x == Thumb(Original)
  }

  lemma NothingConverted(p: Profile, outputs: seq<Output>, single: bool, answers: nat -> OutputAnswer)
    ensures Converted(p, outputs, 0, single, answers)
  {
  }

  lemma NoFilesYet(p: Profile, outputs: seq<Output>, single: bool, answers: nat -> OutputAnswer, assets: seq<Asset>)
    requires NoWork(assets)
    ensures FilesUpTo(p, outputs, 0, single, answers, assets)
  {
    hide PathOf;
  }

  lemma NoStagesYet(p: Profile, pages: seq<NamedPage>, pageSingle: bool, answers: nat -> OutputAnswer, s: seq<Stage>)
    ensures s == s + WorkStages(p, pages, pageSingle, answers, 0)
  {
  }

  lemma OthersFinal(p: Profile, o: Output, tag: Tag, a: OutputAnswer, was: seq<Asset>, now: seq<Asset>)
    requires WritesPage(p, o, tag, a, was, now)
    ensures forall x: AssetId | x.FinalAsset? && x != FinalAsset(tag) :: PathOf(now, x) == PathOf(was, x)
    ensures forall x: AssetId | Untouched(x) :: PathOf(now, x) == PathOf(was, x)
  {
    hide PathOf, ThumbFile;
  }

  lemma SameNames(before: seq<Output>, after: seq<Output>, i: nat, pageSingle: bool)
    requires i < |before| == |after| && forall k | 0 <= k < |after| && k != i :: after[k] == before[k]
    requires after[i].token == before[i].token && after[i].pagePath == before[i].pagePath
    requires after[i].pageId == before[i].pageId && PageIdsAre(before, pageSingle)
    ensures Named(after) == Named(before) && PageIdsAre(after, pageSingle)
  {
  }

  lemma ConvertedMore(p: Profile, before: seq<Output>, after: seq<Output>, i: nat, single: bool,
                      answers: nat -> OutputAnswer)
    requires i < |before| == |after| && forall k | 0 <= k < |after| && k != i :: after[k] == before[k]
    requires Converted(p, before, i, single, answers)
    requires var page := NamedPage(after[i].token, after[i].pagePath);
             && after[i].colorPath == ColorPathOf(single, page, answers(i))
             && after[i].finalPath == FinalPathOf(p, single, page, answers(i))
    ensures Converted(p, after, i + 1, single, answers)
  {
  }

  lemma FilesMore(p: Profile, before: seq<Output>, after: seq<Output>, i: nat, single: bool,
                  answers: nat -> OutputAnswer, was: seq<Asset>, now: seq<Asset>)
    requires i < |before| == |after| && forall k | 0 <= k < |after| && k != i :: after[k] == before[k]
    requires after[i].token == before[i].token && (single ==> |before| <= 1)
    requires FilesUpTo(p, before, i, single, answers, was)
    requires WritesPage(p, after[i], TagOf(single, after[i].token), answers(i), was, now)
    ensures FilesUpTo(p, after, i + 1, single, answers, now)
  {
    hide PathOf, ThumbFile;
    if DistinctOutputs(after) {
      DistinctBack(before, after, i);
      var tag := TagOf(single, after[i].token);
      forall k | 0 <= k < i + 1
        ensures PageFiles(p, after[k], TagOf(single, after[k].token), answers(k), now)
      {
        if k < i {
          assert after[k] == before[k] && after[k].token != after[i].token;
          assert PageFiles(p, before[k], TagOf(single, before[k].token), answers(k), was);
        } else {
          assert Mine(Thumb(PageAsset(tag)), tag) && Mine(Thumb(ColorAsset(tag)), tag)
                   && Mine(Thumb(FinalAsset(tag)), tag);
        }
      }
      forall k, x: AssetId | i + 1 <= k < |after| && Mine(x, TagOf(single, after[k].token))
        ensures PathOf(now, x) == None
      {
        assert after[k] == before[k] && after[i].token != after[k].token;
      }
    }
  }

  lemma DistinctBack(before: seq<Output>, after: seq<Output>, i: nat)
    requires i < |before| == |after| && forall k | 0 <= k < |after| && k != i :: after[k] == before[k]
    requires after[i].token == before[i].token && DistinctOutputs(after)
    ensures DistinctOutputs(before)
  {
    forall j, k | 0 <= j < k < |before| ensures before[j].token != before[k].token {
      assert before[j].token == after[j].token && before[k].token == after[k].token;
    }
  }

  lemma StagesMore(p: Profile, outputs: seq<Output>, pageSingle: bool, answers: nat -> OutputAnswer, i: nat,
                   s: seq<Stage>)
    requires i < |outputs| && PageIdsAre(outputs, pageSingle)
    ensures s + WorkStages(p, Named(outputs), pageSingle, answers, i)
              + OutputStages(p, TagOf(|outputs| <= 1, outputs[i].token), outputs[i].pageId, answers(i))
            == s + WorkStages(p, Named(outputs), pageSingle, answers, i + 1)
  {
    hide OutputStages;
  }

  lemma ThumbOnly(before: seq<Asset>, after: seq<Asset>, id: AssetId)
    requires OnlyWrites(before, after, id)
    ensures forall x: AssetId | x != id :: PathOf(after, x) == PathOf(before, x)
  {
  }

  lemma NoWorkYet(a0: seq<Asset>, a1: seq<Asset>, a2: seq<Asset>)
    requires forall x: AssetId | x != Original && x != Laser :: PathOf(a0, x) == None
    requires forall x: AssetId | x != Thumb(Original) :: PathOf(a1, x) == PathOf(a0, x)
    requires forall x: AssetId | !x.PageAsset? :: PathOf(a2, x) == PathOf(a1, x)
    ensures NoWork(a2)
  {
    hide PathOf;
  }

  lemma OriginalStays(request: Request, w: World, was: seq<Asset>, now: seq<Asset>)
    requires OriginalFiles(request, w, was) && forall x: AssetId | Untouched(x) :: PathOf(now, x) == PathOf(was, x)
    ensures OriginalFiles(request, w, now)
  {
    hide PathOf, ThumbFile;
    assert Untouched(Original) && Untouched(Laser) && Untouched(Thumb(Original));
  }

  lemma SameTokens(outputs: seq<Output>, pages: seq<NamedPage>)
    requires Named(outputs) == pages
    ensures DistinctOutputs(outputs) <==> DistinctTokens(pages)
  {
    assert forall k | 0 <= k < |outputs| :: pages[k].token == outputs[k].token;
  }

  lemma PageFilesStay(before: seq<Output>, after: seq<Output>, single: bool, was: seq<Asset>, now: seq<Asset>)
    requires Named(before) == Named(after) && PageIdsAre(before, single) && PageIdsAre(after, single)
    requires PageFilesThere(before, was) && forall x: AssetId | Untouched(x) :: PathOf(now, x) == PathOf(was, x)
    ensures PageFilesThere(after, now)
  {
    hide PathOf;
    assert |before| == |after|;
    forall k | 0 <= k < |after| ensures after[k].token == before[k].token && after[k].pagePath == before[k].pagePath {
      assert Named(before)[k] == Named(after)[k];
    }
  }

  lemma IdsFromNames(outputs: seq<Output>, pages: seq<NamedPage>, single: bool)
    requires Named(outputs) == pages && PageIdsAre(outputs, single)
    ensures PageIds(outputs) == PageIdsOf(pages, single)
  {
    assert forall k | 0 <= k < |outputs| :: pages[k].token == outputs[k].token;
  }

  lemma FinalIdsFromNames(outputs: seq<Output>, pages: seq<NamedPage>, assets: seq<Asset>)
    requires Named(outputs) == pages && Finished(outputs, |outputs|, |outputs| <= 1, assets)
    ensures (forall k | 0 <= k < |outputs| :: outputs[k].finalId.Some?) && FinalIds(outputs) == FinalIdsOf(pages)
  {
    hide Has;
    assert forall k | 0 <= k < |outputs| :: pages[k].token == outputs[k].token;
  }

  lemma AllFiles(p: Profile, outputs: seq<Output>, single: bool, answers: nat -> OutputAnswer, assets: seq<Asset>)
    requires FilesUpTo(p, outputs, |outputs|, single, answers, assets) && PageFilesThere(outputs, assets)
    ensures DistinctOutputs(outputs) ==>
              forall k | 0 <= k < |outputs| ::
                && PathOf(assets, outputs[k].pageId) == Some(outputs[k].pagePath)
                && PageFiles(p, outputs[k], TagOf(single, outputs[k].token), answers(k), assets)
  {
    hide PathOf, PageFiles;
  }

  lemma Nothing(assets: seq<Asset>, id: AssetId)
    ensures OnlyWrites(assets, assets, id) && Grown(assets, assets)
  {
  }

  lemma NoneYet(outputs: seq<Output>, single: bool, assets: seq<Asset>)
    ensures Finished(outputs, 0, single, assets) && LastShown(outputs, 0, assets)
  {
  }

  lemma KeepsOriginal(before: seq<Asset>, after: seq<Asset>)
    ensures Grown(before, after) && Has(before, Original) ==> Has(after, Original)
  {
  }

  lemma LateAsset(stages: seq<Stage>, s: Stage, before: seq<Asset>, after: seq<Asset>)
    requires Closed(stages, before) && Grown(before, after)
    requires s.succeeded && AllThere(s.inputs, before) && AllThere(s.outputs, after)
    ensures Closed(stages + [s], after) && (Broken(stages + [s]) <==> Broken(stages))
  {
    StillClosed(stages, before, after);
    OneMoreStage(stages, s, after);
  }

  lemma NoPages()
    ensures PagesOf([]) == []
  {
  }

  lemma OneMorePage(pages: seq<ProviderPage>, k: nat)
    requires k < |pages|
    ensures var before := PagesOf(pages[..k]);
            PagesOf(pages[..k + 1]) ==
              if pages[k].path == NoPath then before
              else before + [NamedPage(SanitizedOr(pages[k].id, "page-" + Decimal(|before| + 1)), pages[k].path)]
  {
    assert pages[..k + 1][..k] == pages[..k];
  }

  lemma PagesStay(before: seq<Output>, after: seq<Output>, i: nat, was: seq<Asset>, now: seq<Asset>)
    requires PagesThere(before, was) && Grown(was, now) && i < |before| == |after|
    requires forall k | 0 <= k < |after| && k != i :: after[k] == before[k]
    requires after[i].pageId == before[i].pageId
    ensures PagesThere(after, now)
  {
  }

  lemma FinishedMore(before: seq<Output>, after: seq<Output>, i: nat, single: bool, was: seq<Asset>, now: seq<Asset>)
    requires i < |before| == |after| && Finished(before, i, single, was) && Grown(was, now)
    requires forall k | 0 <= k < |after| && k != i :: after[k] == before[k]
    requires after[i].finalId == Some(FinalAsset(TagOf(single, after[i].token))) && Has(now, after[i].finalId.value)
    ensures Finished(after, i + 1, single, now)
  {
  }

  lemma LastShownMore(before: seq<Output>, after: seq<Output>, i: nat, single: bool, was: seq<Asset>, now: seq<Asset>)
    requires i < |before| == |after| && Finished(before, i, single, was)
    requires LastShown(before, i, was)
    requires forall k | 0 <= k < |after| && k != i :: after[k] == before[k]
    requires after[i].finalId == Some(FinalAsset(TagOf(single, after[i].token)))
    requires PathOf(now, after[i].finalId.value) == Some(after[i].finalPath)
    requires forall x: AssetId | x.FinalAsset? && Some(x) != after[i].finalId :: PathOf(now, x) == PathOf(was, x)
    ensures LastShown(after, i + 1, now)
  {
    forall k | 0 <= k < i + 1 && !SharedLater(after, i + 1, k)
      ensures after[k].finalId.Some? && PathOf(now, after[k].finalId.value) == Some(after[k].finalPath)
    {
      if k < i {
        assert after[k] == before[k] && after[i].finalId != after[k].finalId;
        NotSharedBefore(before, after, i, k);
      }
    }
  }

  lemma NotSharedBefore(before: seq<Output>, after: seq<Output>, i: nat, k: nat)
    requires k < i < |before| == |after| && !SharedLater(after, i + 1, k)
    requires forall j | 0 <= j < i :: after[j] == before[j]
    ensures !SharedLater(before, i, k)
  {
    forall j | k < j < i ensures before[j].finalId != before[k].finalId {
      assert after[j] == before[j] && after[k] == before[k];
    }
  }

  /** Tokens and final asset ids tell pages apart alike. */
  lemma SamePages(outputs: seq<Output>, pages: seq<NamedPage>, assets: seq<Asset>)
    requires Named(outputs) == pages && Finished(outputs, |outputs|, |outputs| <= 1, assets)
    requires LastShown(outputs, |outputs|, assets)
    ensures Apart(outputs) <==> DistinctTokens(pages)
    ensures Apart(outputs) ==> Faithful(outputs, assets)
  {
    hide Has;
    assert forall k | 0 <= k < |outputs| :: pages[k].token == outputs[k].token;
    if Apart(outputs) {
      assert forall k | 0 <= k < |outputs| :: !SharedLater(outputs, |outputs|, k);
    }
  }

  lemma QuietShotFails(raw: Raw, a: RawAnswer)
    ensures !raw.captured && a.shot.code == OK && !a.shot.captured ==> !RawWorks(raw, a)
  {
  }

  /** The code of the first conversion that fails decides. */
  lemma QuietIffCode(request: Request, w: World, ok: bool, code: int)
    requires var n := |PagesFor(request, w)|;
             && (ok <==> forall k | 0 <= k < n :: FormatWorks(request.profile, w.outputs(k).format))
             && (!ok ==> exists k | 0 <= k < n ::
                           FailsFirst(request.profile, w.outputs, k) && code == w.outputs(k).format.code)
    ensures !ok && code == OK <==> ConversionFailsQuietly(request, w)
  {
    var n := |PagesFor(request, w)|;
    if !ok {
      var k :| 0 <= k < n && FailsFirst(request.profile, w.outputs, k) && code == w.outputs(k).format.code;
      if j :| 0 <= j < n && FailsFirst(request.profile, w.outputs, j) && QuietFormat(w.outputs(j).format) {
        OneFirst(request.profile, w.outputs, j, k);
      }
      assert code == OK ==> QuietFormat(w.outputs(k).format);
    }
  }

  // ----- what the stages and answers mean

  /** A stage of thumbnail `shown` of asset `of`; it succeeded iff the provider generated a file
      that exists, or the copy worked. */
  predicate IsThumb(s: Stage, of: AssetId, shown: AssetId, a: ThumbAnswer) {
    && s.name == ThumbStage(shown) && s.inputs == [of]
    && (s.succeeded <==> (a.code == 0 && a.generated && a.exists_) || a.copied)
    && s.outputs == (if s.succeeded then [Thumb(shown)] else [])
  }

  ghost predicate HasThumb(stages: seq<Stage>, of: AssetId, shown: AssetId, a: ThumbAnswer) {
    exists s :: s in stages && IsThumb(s, of, shown, a)
  }

  lemma ThumbThere(of: AssetId, shown: AssetId, a: ThumbAnswer)
    ensures HasThumb(ThumbStages(true, of, shown, a), of, shown, a)
  {
    var ok := Generates(a) || a.copied;
    var s := Stage(ThumbStage(shown), ok, [of], if ok then [Thumb(shown)] else []);
    assert s in ThumbStages(true, of, shown, a) && IsThumb(s, of, shown, a);
  }

  lemma StillThere(before: seq<Stage>, part: seq<Stage>, after: seq<Stage>, of: AssetId, shown: AssetId, a: ThumbAnswer)
    requires HasThumb(part, of, shown, a)
    ensures HasThumb(before + part + after, of, shown, a)
  {
    var s :| s in part && IsThumb(s, of, shown, a);
    assert s in before + part + after;
  }

  /** Each enabled thumbnail of a page is among the stages of that page. */
  lemma ThumbsOfPage(p: Profile, tag: Tag, pageId: AssetId, a: OutputAnswer)
    ensures var s := OutputStages(p, tag, pageId, a);
            && (p.thumbPage ==> HasThumb(s, pageId, PageAsset(tag), a.page))
            && (p.thumbColor ==> HasThumb(s, ColorAsset(tag), ColorAsset(tag), a.colorThumb))
            && (p.thumbFinal ==> HasThumb(s, FinalAsset(tag), FinalAsset(tag), a.finalThumb))
  {
    hide ThumbStages, IsThumb, HasThumb;
    var page := ThumbStages(p.thumbPage, pageId, PageAsset(tag), a.page);
    var color := ThumbStages(p.thumbColor, ColorAsset(tag), ColorAsset(tag), a.colorThumb);
    var final := ThumbStages(p.thumbFinal, FinalAsset(tag), FinalAsset(tag), a.finalThumb);
    var c, f := [Stage(ColorStage(tag), true, [pageId], [ColorAsset(tag)])],
        [Stage(FormatStage(tag), true, [ColorAsset(tag)], [FinalAsset(tag)])];
    assert OutputStages(p, tag, pageId, a) == [] + page + (c + color + f + final);
    assert OutputStages(p, tag, pageId, a) == (page + c) + color + (f + final);
    assert OutputStages(p, tag, pageId, a) == (page + c + color + f) + final + [];
    if p.thumbPage {
      ThumbThere(pageId, PageAsset(tag), a.page);
      StillThere([], page, c + color + f + final, pageId, PageAsset(tag), a.page);
    }
    if p.thumbColor {
      ThumbThere(ColorAsset(tag), ColorAsset(tag), a.colorThumb);
      StillThere(page + c, color, f + final, ColorAsset(tag), ColorAsset(tag), a.colorThumb);
    }
    if p.thumbFinal {
      ThumbThere(FinalAsset(tag), FinalAsset(tag), a.finalThumb);
      StillThere(page + c + color + f, final, [], FinalAsset(tag), FinalAsset(tag), a.finalThumb);
    }
  }

  lemma {:induction false} ThumbsOfWork(p: Profile, pages: seq<NamedPage>, pageSingle: bool,
                                        answers: nat -> OutputAnswer,
                                        n: nat, k: nat)
    requires k < n <= |pages|
    ensures var s := WorkStages(p, pages, pageSingle, answers, n);
            var tag, pageId := TagOf(|pages| <= 1, pages[k].token), PageAsset(TagOf(pageSingle, pages[k].token));
            && (p.thumbPage ==> HasThumb(s, pageId, PageAsset(tag), answers(k).page))
            && (p.thumbColor ==> HasThumb(s, ColorAsset(tag), ColorAsset(tag), answers(k).colorThumb))
            && (p.thumbFinal ==> HasThumb(s, FinalAsset(tag), FinalAsset(tag), answers(k).finalThumb))
    decreases n
  {
    hide HasThumb, OutputStages;
    var tag, pageId := TagOf(|pages| <= 1, pages[k].token), PageAsset(TagOf(pageSingle, pages[k].token));
    var before, a := WorkStages(p, pages, pageSingle, answers, n - 1), answers(k);
    var token := pages[n - 1].token;
    var last := OutputStages(p, TagOf(|pages| <= 1, token), PageAsset(TagOf(pageSingle, token)), answers(n - 1));
    assert before + last == [] + before + last && before + last == before + last + [];
    if k == n - 1 { ThumbsOfPage(p, tag, pageId, a); } else { ThumbsOfWork(p, pages, pageSingle, answers, n - 1, k); }
    if p.thumbPage {
      if k == n - 1 { StillThere(before, last, [], pageId, PageAsset(tag), a.page); }
      else { StillThere([], before, last, pageId, PageAsset(tag), a.page); }
    }
    if p.thumbColor {
      if k == n - 1 { StillThere(before, last, [], ColorAsset(tag), ColorAsset(tag), a.colorThumb); }
      else { StillThere([], before, last, ColorAsset(tag), ColorAsset(tag), a.colorThumb); }
    }
    if p.thumbFinal {
      if k == n - 1 { StillThere(before, last, [], FinalAsset(tag), FinalAsset(tag), a.finalThumb); }
      else { StillThere([], before, last, FinalAsset(tag), FinalAsset(tag), a.finalThumb); }
    }
  }

  /** A thumbnail stage is of a kind that the profile enables. */
  predicate Enabled(p: Profile, s: Stage) {
    s.name.ThumbStage? ==>
      match s.name.of
      case Original => p.thumbOriginal
      case PageAsset(_) => p.thumbPage
      case ColorAsset(_) => p.thumbColor
      case FinalAsset(_) => p.thumbFinal
      case _ => false
  }

  lemma {:induction false} WorkEnabled(p: Profile, pages: seq<NamedPage>, pageSingle: bool,
                                       answers: nat -> OutputAnswer,
                                       n: nat)
    requires n <= |pages|
    ensures forall s <- WorkStages(p, pages, pageSingle, answers, n) :: Enabled(p, s)
    decreases n
  {
    if n > 0 {
      hide OutputStages;
      WorkEnabled(p, pages, pageSingle, answers, n - 1);
      var token := pages[n - 1].token;
      PageEnabled(p, TagOf(|pages| <= 1, token), PageAsset(TagOf(pageSingle, token)), answers(n - 1));
    }
  }

  lemma PageEnabled(p: Profile, tag: Tag, pageId: AssetId, a: OutputAnswer)
    ensures forall s <- OutputStages(p, tag, pageId, a) :: Enabled(p, s)
  {
  }

  /** In the stages of a successful run: for the original and for every page each enabled thumbnail
      has a stage named after its asset, with that asset as input, that succeeded iff there is a
      file for it; and there is no thumbnail stage of a disabled kind. */
  lemma EveryThumbnail(request: Request, w: World, k: nat)
    requires k < |PagesFor(request, w)|
    ensures var stages, p, pages, a := Timeline(request, w), request.profile, PagesFor(request, w), w.outputs(k);
            var tag := TagOf(|pages| <= 1, pages[k].token);
            var pageId := PageAsset(TagOf(PageSingle(w.page), pages[k].token));
            && (p.thumbOriginal ==> HasThumb(stages, Original, Original, w.originalThumb))
            && (p.thumbPage ==> HasThumb(stages, pageId, PageAsset(tag), a.page))
            && (p.thumbColor ==> HasThumb(stages, ColorAsset(tag), ColorAsset(tag), a.colorThumb))
            && (p.thumbFinal ==> HasThumb(stages, FinalAsset(tag), FinalAsset(tag), a.finalThumb))
            && (forall s <- stages :: Enabled(p, s))
  {
    hide HasThumb, OutputStages, ThumbStages, WorkStages, IsThumb, PagesOf, ExpectedPages;
    var pages, p, single := PagesFor(request, w), request.profile, PageSingle(w.page);
    var tag, pageId := TagOf(|pages| <= 1, pages[k].token), PageAsset(TagOf(single, pages[k].token));
    var raw := [Stage(RawStage, true, [], [Original])];
    var thumb := ThumbStages(p.thumbOriginal, Original, Original, w.originalThumb);
    var page := [Stage(PageStage, true, [Original], PageIdsOf(pages, single))];
    var work := WorkStages(p, pages, single, w.outputs, |pages|);
    var end := [Stage(FinalStage, true, FinalIdsOf(pages), [])];
    assert Timeline(request, w) == raw + thumb + (page + work + end);
    assert Timeline(request, w) == (raw + thumb + page) + work + end;
    ThumbsOfWork(p, pages, single, w.outputs, |pages|, k);
    WorkEnabled(p, pages, single, w.outputs, |pages|);
    OriginalEnabled(p, w.originalThumb);
    if p.thumbOriginal {
      ThumbThere(Original, Original, w.originalThumb);
      StillThere(raw, thumb, page + work + end, Original, Original, w.originalThumb);
    }
    if p.thumbPage { StillThere(raw + thumb + page, work, end, pageId, PageAsset(tag), w.outputs(k).page); }
    if p.thumbColor {
      StillThere(raw + thumb + page, work, end, ColorAsset(tag), ColorAsset(tag), w.outputs(k).colorThumb);
    }
    if p.thumbFinal {
      StillThere(raw + thumb + page, work, end, FinalAsset(tag), FinalAsset(tag), w.outputs(k).finalThumb);
    }
  }

  lemma OriginalEnabled(p: Profile, a: ThumbAnswer)
    ensures forall s <- ThumbStages(p.thumbOriginal, Original, Original, a) :: Enabled(p, s)
  {
  }

  /** What makes a run succeed, in the answers themselves: an image that is there and staged; pages
      that the provider processed, or the original if it did not; and for every page a file in the
      requested format or a conversion that worked. */
  lemma AnswersMean(request: Request, w: World, k: nat)
    ensures RawWorks(request.raw, w.raw) <==>
              if request.raw.captured then
                && request.raw.original != NoPath
                && (request.raw.original == Own(Original) ==> w.raw.exists_)
                && (request.raw.original != Own(Original) ==> w.raw.copied)
                && (request.raw.laser == NoPath || request.raw.laser == Own(Laser) || w.raw.laserCopied)
              else w.raw.shot.code == 0 && w.raw.shot.captured
    ensures PageWorks(w.page) <==>
              || w.page.code != 0 || w.page.unsupported || !w.page.processed || w.page.pages == []
              || exists n :: 0 <= n < |w.page.pages| && w.page.pages[n].path != NoPath
    ensures FormatWorks(request.profile, w.outputs(k).format) <==>
              var a := w.outputs(k).format;
              || (a.sameFormat && !request.profile.needsScale && !request.profile.needsQuality)
              || (a.code == 0 && (a.converted || a.passthrough))
    ensures PageFallsBack(w.page) <==> !(w.page.code == 0 && !w.page.unsupported && w.page.processed)
    ensures ColorFallsBack(w.outputs(k).color) <==>
              var a := w.outputs(k).color;
              !(a.code == 0 && !a.unsupported && a.processed)
  {
  }

  /** The pages of a run: the original alone if the provider did not process it, the one file if it
      named no page, and otherwise its pages with a file, in order. */
  lemma PagesMean(request: Request, w: World)
    ensures var pages, a, original := PagesFor(request, w), w.page,
                if request.raw.captured then Own(Original) else w.raw.shot.original;
            && (a.code != 0 || a.unsupported || !a.processed ==> pages == [NamedPage("page-001", original)])
            && (a.code == 0 && !a.unsupported && a.processed && a.pages == [] ==>
                  pages == [NamedPage("page-001", if a.path == NoPath then Own(PageAsset(None)) else a.path)])
            && (a.code == 0 && !a.unsupported && a.processed && a.pages != [] ==>
                  PathsOf(pages) == FilesOf(a.pages))
  {
    PathsInOrder(w.page.pages);
  }

  function PathsOf(pages: seq<NamedPage>): seq<Path> {
    seq(|pages|, i requires 0 <= i < |pages| => pages[i].path)
  }

  function FilesOf(pages: seq<ProviderPage>): seq<Path> {
    if pages == [] then []
    else FilesOf(pages[..|pages| - 1]) + (if pages[|pages| - 1].path.NoPath? then [] else [pages[|pages| - 1].path])
  }

  lemma {:induction false} PathsInOrder(pages: seq<ProviderPage>)
    ensures PathsOf(PagesOf(pages)) == FilesOf(pages)
  {
    hide SanitizedOr, Decimal;
    if pages != [] { PathsInOrder(pages[..|pages| - 1]); }
  }

  // ----- runs that fail these conditions

  const NO_THUMB := ThumbAnswer(OK, false, NoPath, false, false)

  function FormattedAs(path: Path, converted: bool): OutputAnswer {
    OutputAnswer(NO_THUMB, ColorAnswer(OK, false, true, NoPath), NO_THUMB,
                 FormatAnswer(false, OK, converted, false, path), NO_THUMB)
  }

  lemma FormattedPath(p: Profile, page: NamedPage, path: Path)
    ensures FinalPathOf(p, false, page, FormattedAs(path, true)) == Or(path, Own(FinalAsset(Some(page.token))))
  {
  }

  /** Two pages with a file each, one of them with a name that is the fallback name of the other:
      the run succeeds, both pages have the same final asset, and only the second is shown.  With
      `f` and `g` empty even the file is the same, and the second conversion overwrites it. */
  method ARunThatLosesAPage(p: Path, q: Path, f: Path, g: Path)
    returns (context: CapturePipelineContext, result: Result)
    requires p != NoPath && q != NoPath
    ensures fresh(context) && result.status == Succeeded && |context.outputs| == 2
    ensures context.outputs[0].pagePath == p && context.outputs[1].pagePath == q
    ensures context.outputs[0].finalId == context.outputs[1].finalId
    ensures var id := FinalAsset(Some("page-2"));
            && context.outputs[0].finalPath == Or(f, Own(id))
            && PathOf(result.assets, id) == Some(Or(g, Own(id)))
  {
    hide Closed, Unique, Broken, SanitizedOr, Decimal, PagesOf;
    TokensCanClash(p, q);
    var request := Request(Raw(false, OK, NoPath, NoPath), Profile(false, false, false, false, false, false));
    var pages := [ProviderPage("page-2", p), ProviderPage("", q)];
    var answers := (k: nat) => FormattedAs(if k == 0 then f else g, true);
    var w := World(RawAnswer(Raw(true, OK, p, NoPath), true, true, true), NO_THUMB,
                   PageAnswer(OK, false, true, pages, NoPath), answers);
    context := new CapturePipelineContext(request);
    assert PagesFor(request, w) == [NamedPage("page-2", p), NamedPage("page-2", q)];
    assert pages[0].path != NoPath && PageWorks(w.page) && RawWorks(request.raw, w.raw);
    forall k: nat ensures FormatWorks(request.profile, w.outputs(k).format) {
      assert w.outputs(k) == FormattedAs(if k == 0 then f else g, true);
    }
    result := context.Run(w);
    assert result.status == Succeeded;
    ghost var named := Named(context.outputs);
    assert named[0] == NamedPage("page-2", p) && named[1] == NamedPage("page-2", q);
    FormattedPath(request.profile, named[0], f);
    FormattedPath(request.profile, named[1], g);
    assert w.outputs(0) == FormattedAs(f, true) && w.outputs(1) == FormattedAs(g, true);
    assert !SharedLater(context.outputs, 2, 1);
  }

  /** The provider reports success for a conversion that it did not make: the run has failed and
      its code says that it has not. */
  method ARunThatFailsQuietly(p: Path) returns (result: Result)
    requires p != NoPath
    ensures result.status == Failed && result.code == OK
  {
    hide Closed, Unique, Broken;
    var request := Request(Raw(false, OK, NoPath, NoPath), Profile(false, false, false, false, false, false));
    var answers := (k: nat) => FormattedAs(NoPath, false);
    var w := World(RawAnswer(Raw(true, OK, p, NoPath), true, true, true), NO_THUMB,
                   PageAnswer(OK, false, true, [], p), answers);
    var context := new CapturePipelineContext(request);
    assert |PagesFor(request, w)| == 1;
    assert FailsFirst(request.profile, w.outputs, 0) && QuietFormat(w.outputs(0).format);
    result := context.Run(w);
  }

  /** The fallback name of a page can be the name that another page really has: both pages then
      share one asset, and the file of the first is lost from the result. */
  lemma TokensCanClash(p: Path, q: Path)
    requires p != NoPath && q != NoPath
    ensures PagesOf([ProviderPage("page-2", p), ProviderPage("", q)])
              == [NamedPage("page-2", p), NamedPage("page-2", q)]
  {
    hide SanitizedOr, Decimal, PagesOf;
    var pages := [ProviderPage("page-2", p), ProviderPage("", q)];
    assert pages[..0] == [] && pages[..2] == pages;
    NoPages();
    OneMorePage(pages, 0);
    OneMorePage(pages, 1);
    GivenName("page-" + Decimal(1));
    FallbackName();
  }

  lemma GivenName(fallback: string)
    ensures SanitizedOr("page-2", fallback) == "page-2"
  {
    TokenOfToken("page-2");
  }

  lemma FallbackName()
    ensures SanitizedOr("", "page-" + Decimal(2)) == "page-2"
  {
    assert Token("") == "";
    assert Decimal(2) == "2";
  }
}
