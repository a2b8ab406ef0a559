/** The graph of assets and stages that a pipeline run builds: names, look-up and what adding to it
    keeps. */
module CaptureGraph {
  import opened Wrappers

  const OK := 0
  const CAPTURE_FAILED := 1301
  const PROVIDER_CALL_FAILED := 1902

  // ----- names

  /** The token of a page, or none if there is only one page. */
  type Tag = Option<string>

  datatype AssetId =
    | Original
    | Laser
    | PageAsset(tag: Tag)
    | ColorAsset(tag: Tag)
    | FinalAsset(tag: Tag)
    | Thumb(of: AssetId)

  datatype StageName =
    | RawStage
    | PageStage
    | ColorStage(tag: Tag)
    | FormatStage(tag: Tag)
    | ThumbStage(of: AssetId)
    | FinalStage

  function WithTag(name: string, tag: Tag): string {
    if tag.None? then name else name + "-" + tag.value
  }

  function Suffix(id: AssetId): string {
    match id
    case Original => "original"
    case Laser => "laser"
    case PageAsset(tag) => WithTag("page-processed", tag)
    case ColorAsset(tag) => WithTag("color-processed", tag)
    case FinalAsset(tag) => WithTag("final", tag)
    case Thumb(of) => "thumbnail-" + Suffix(of)
  }

  /** The asset id as the protocol shows it. */
  function IdText(id: AssetId): string {
    "asset-" + Suffix(id)
  }

  lemma AfterPrefix(p: string, a: string, b: string)
    ensures p + a == p + b <==> a == b
  {
    assert (p + a)[|p|..] == a && (p + b)[|p|..] == b;
  }

  lemma TagTold(name: string, a: Tag, b: Tag)
    requires WithTag(name, a) == WithTag(name, b)
    ensures a == b
  {
    if a.Some? && b.Some? {
      assert name + "-" + a.value == name + "-" + b.value;
      AfterPrefix(name + "-", a.value, b.value);
    }
  }

  function Initial(id: AssetId): char {
    match id
    case Original => 'o'
    case Laser => 'l'
    case PageAsset(_) => 'p'
    case ColorAsset(_) => 'c'
    case FinalAsset(_) => 'f'
    case Thumb(_) => 't'
  }

  lemma FirstLetter(id: AssetId)
    ensures Suffix(id) != ""
    ensures Suffix(id)[0] == Initial(id)
  {
  }

  /** Different assets of the model have different ids in the protocol. */
  lemma {:induction false} IdsAreTold(a: AssetId, b: AssetId)
    ensures IdText(a) == IdText(b) <==> a == b
  {
    if IdText(a) == IdText(b) {
      AfterPrefix("asset-", Suffix(a), Suffix(b));
      SuffixTold(a, b);
    }
  }

  lemma {:induction false} SuffixTold(a: AssetId, b: AssetId)
    requires Suffix(a) == Suffix(b)
    ensures a == b
  {
    hide WithTag;
    FirstLetter(a);
    FirstLetter(b);
    match a
    case PageAsset(tag) => TagTold("page-processed", tag, b.tag);
    case ColorAsset(tag) => TagTold("color-processed", tag, b.tag);
    case FinalAsset(tag) => TagTold("final", tag, b.tag);
    case Thumb(of) =>
      AfterPrefix("thumbnail-", Suffix(of), Suffix(b.of));
      SuffixTold(of, b.of);
    case _ =>
  }

  /** The ids as the protocol knows them. */
  lemma ProtocolIds(token: string)
    ensures IdText(Original) == "asset-original" && IdText(Laser) == "asset-laser"
    ensures IdText(PageAsset(None)) == "asset-page-processed"
    ensures IdText(PageAsset(Some(token))) == "asset-" + ("page-processed-" + token)
  {
    assert "page-processed" + "-" + token == "page-processed-" + token;
  }

  lemma ProtocolColorIds(token: string)
    ensures IdText(ColorAsset(None)) == "asset-color-processed"
    ensures IdText(ColorAsset(Some(token))) == "asset-" + ("color-processed-" + token)
    ensures IdText(FinalAsset(None)) == "asset-final"
    ensures IdText(FinalAsset(Some(token))) == "asset-" + ("final-" + token)
  {
    assert "color-processed" + "-" + token == "color-processed-" + token;
    assert "final" + "-" + token == "final-" + token;
  }

  lemma ThumbnailIds(of: AssetId, name: string)
    requires IdText(of) == "asset-" + name
    ensures IdText(Thumb(of)) == "asset-" + ("thumbnail-" + name)
  {
    AfterPrefix("asset-", Suffix(of), name);
  }

  // ----- page tokens

  function Cleaned(ch: char): string {
    if 'A' <= ch <= 'Z' then [ch - 'A' + 'a']
    else if 'a' <= ch <= 'z' || '0' <= ch <= '9' then [ch]
    else if ch == '-' || ch == '_' then "-"
    else ""
  }

  function Token(value: string): string {
    if value == "" then "" else Token(value[..|value| - 1]) + Cleaned(value[|value| - 1])
  }

  predicate IsTokenChar(ch: char) {
    'a' <= ch <= 'z' || '0' <= ch <= '9' || ch == '-'
  }

  lemma {:induction false} TokenIsClean(value: string)
    ensures forall ch <- Token(value) :: IsTokenChar(ch)
  {
    if value != "" { TokenIsClean(value[..|value| - 1]); }
  }

  /** A clean token is its own token. */
  lemma {:induction false} TokenOfToken(value: string)
    requires forall ch <- value :: IsTokenChar(ch)
    ensures Token(value) == value
  {
    if value != "" {
      var n := |value| - 1;
      TokenOfToken(value[..n]);
      assert IsTokenChar(value[n]) && Cleaned(value[n]) == [value[n]];
      assert value == value[..n] + [value[n]];
    }
  }

  predicate InToken(ch: char) {
    'A' <= ch <= 'Z' || 'a' <= ch <= 'z' || '0' <= ch <= '9' || ch == '-' || ch == '_'
  }

  /** Characters that a token does not tell apart. */
  predicate Alike(a: char, b: char) {
    || a == b || (a == '-' && b == '_') || (a == '_' && b == '-')
    || ('A' <= a <= 'Z' && b as int == a as int + 32) || ('A' <= b <= 'Z' && a as int == b as int + 32)
  }

  lemma {:induction false} TokenAppend(a: string, b: string)
    ensures Token(a + b) == Token(a) + Token(b)
  {
    if b == "" {
      assert a + b == a;
    } else {
      assert (a + b)[..|a + b| - 1] == a + b[..|b| - 1];
      TokenAppend(a, b[..|b| - 1]);
    }
  }

  /** A character that is no ASCII letter, digit, hyphen or underscore is dropped; ... */
  lemma TokenDrops(a: string, ch: char, b: string)
    ensures Token(a + [ch] + b) == Token(a + b) <==> !InToken(ch)
  {
    hide Token;
    TokenAppend(a + [ch], b);
    TokenAppend(a, [ch]);
    TokenAppend(a, b);
    TokenOfOne(ch);
    if InToken(ch) { assert |Token(a + [ch] + b)| == |Token(a + b)| + 1; }
  }

  lemma TokenOfOne(ch: char)
    ensures |Token([ch])| == if InToken(ch) then 1 else 0
  {
    assert [ch][..0] == "" && Token("") == "";
  }

  /** ... the others are told apart but for case and underscores. */
  lemma {:induction false} SameToken(a: string, b: string)
    requires |a| == |b| && (forall ch <- a :: InToken(ch)) && (forall ch <- b :: InToken(ch))
    ensures Token(a) == Token(b) <==> forall i | 0 <= i < |a| :: Alike(a[i], b[i])
  {
    hide Cleaned, Alike;
    if a != "" {
      var n := |a| - 1;
      SameToken(a[..n], b[..n]);
      assert InToken(a[n]) && InToken(b[n]);
      SameCleaned(a[n], b[n]);
      SameLength(a[..n]);
      SameLength(b[..n]);
      SameEnds(Token(a[..n]), Cleaned(a[n]), Token(b[..n]), Cleaned(b[n]));
    }
  }

  lemma SameCleaned(a: char, b: char)
    requires InToken(a) && InToken(b)
    ensures Cleaned(a) == Cleaned(b) <==> Alike(a, b)
  {
  }

  lemma {:induction false} SameLength(a: string)
    requires forall ch <- a :: InToken(ch)
    ensures |Token(a)| == |a|
  {
    if a != "" {
      assert InToken(a[|a| - 1]);
      SameLength(a[..|a| - 1]);
    }
  }

  lemma SameEnds(a: string, x: string, b: string, y: string)
    requires |a| == |b|
    ensures a + x == b + y <==> a == b && x == y
  {
    assert (a + x)[..|a|] == a && (a + x)[|a|..] == x && (b + y)[..|b|] == b && (b + y)[|b|..] == y;
  }

  function Digit(n: nat): char
    requires n < 10
  {
    '0' + n as char
  }

  function Decimal(n: nat): string {
    (if n < 10 then "" else Decimal(n / 10)) + [Digit(n % 10)]
  }

  function SanitizedOr(value: string, fallback: string): string {
    if Token(value) == "" then fallback else Token(value)
  }

  // ----- assets and stages

  /** `Own(id)` is the file that this run writes for an asset. */
  datatype Path = NoPath | Given(n: nat) | Own(id: AssetId)

  datatype Asset = Asset(id: AssetId, path: Path)

  datatype Stage = Stage(name: StageName, succeeded: bool, inputs: seq<AssetId>, outputs: seq<AssetId>)

  datatype RunStatus = Open | Succeeded | Failed

  datatype Output = Output(token: string, pageId: AssetId, pagePath: Path,
                           colorId: Option<AssetId>, colorPath: Path, finalId: Option<AssetId>, finalPath: Path)

  predicate Has(assets: seq<Asset>, id: AssetId) {
    exists k :: 0 <= k < |assets| && assets[k].id == id
  }

  predicate Unique(assets: seq<Asset>) {
    forall j, k | 0 <= j < k < |assets| :: assets[j].id != assets[k].id
  }

  function PathOf(assets: seq<Asset>, id: AssetId): (p: Option<Path>)
    ensures p.Some? <==> Has(assets, id)
  {
    if assets == [] then None
    else if assets[0].id == id then (assert Has(assets, id); Some(assets[0].path))
    else
      var p := PathOf(assets[1..], id);
      assert forall k | 0 <= k < |assets| :: k > 0 ==> assets[k] == assets[1..][k - 1];
      assert forall k | 0 <= k < |assets| - 1 :: assets[1..][k] == assets[k + 1];
      p
  }

  predicate AllThere(ids: seq<AssetId>, assets: seq<Asset>) {
    forall k | 0 <= k < |ids| :: Has(assets, ids[k])
  }

  /** Every input of a stage, and every output of a succeeded one, is an asset. */
  predicate Closed(stages: seq<Stage>, assets: seq<Asset>) {
    forall k | 0 <= k < |stages| ::
      AllThere(stages[k].inputs, assets) && (stages[k].succeeded ==> AllThere(stages[k].outputs, assets))
  }

  /** A stage other than a thumbnail failed. */
  predicate Broken(stages: seq<Stage>) {
    exists k :: 0 <= k < |stages| && !stages[k].succeeded && !stages[k].name.ThumbStage?
  }

  ghost predicate Grown(before: seq<Asset>, after: seq<Asset>) {
    forall id: AssetId :: Has(before, id) ==> Has(after, id)
  }

  /** Only the asset `id` is added or written. */
  ghost predicate OnlyWrites(before: seq<Asset>, after: seq<Asset>, id: AssetId) {
    forall x: AssetId | x != id :: PathOf(after, x) == PathOf(before, x)
  }

  lemma StillClosed(stages: seq<Stage>, a: seq<Asset>, b: seq<Asset>)
    requires Closed(stages, a) && Grown(a, b)
    ensures Closed(stages, b)
  {
  }

  lemma OneMoreStage(stages: seq<Stage>, s: Stage, assets: seq<Asset>)
    requires Closed(stages, assets) && AllThere(s.inputs, assets) && (s.succeeded ==> AllThere(s.outputs, assets))
    ensures Closed(stages + [s], assets)
    ensures Broken(stages + [s]) <==> Broken(stages) || (!s.succeeded && !s.name.ThumbStage?)
  {
    StageBreaks(stages, s);
  }

  lemma StageBreaks(stages: seq<Stage>, s: Stage)
    ensures Broken(stages + [s]) <==> Broken(stages) || (!s.succeeded && !s.name.ThumbStage?)
  {
    var all := stages + [s];
    if Broken(stages) {
      var k :| 0 <= k < |stages| && !stages[k].succeeded && !stages[k].name.ThumbStage?;
      assert all[k] == stages[k];
    }
    assert all[|stages|] == s;
  }

  lemma Written(assets: seq<Asset>, k: nat, a: Asset)
    requires k < |assets| && assets[k].id == a.id && Unique(assets)
    ensures Unique(assets[k := a]) && PathOf(assets[k := a], a.id) == Some(a.path)
    ensures OnlyWrites(assets, assets[k := a], a.id) && Grown(assets, assets[k := a])
    decreases |assets|
  {
    if k == 0 {
      assert assets[k := a][1..] == assets[1..];
    } else {
      Written(assets[1..], k - 1, a);
      assert assets[k := a][1..] == assets[1..][k - 1 := a];
    }
    forall x: AssetId | x != a.id ensures PathOf(assets[k := a], x) == PathOf(assets, x) {
      assert assets[k := a][0].id == assets[0].id;
    }
    GrownByPaths(assets, assets[k := a], a.id);
  }

  lemma Appended(assets: seq<Asset>, a: Asset)
    requires Unique(assets) && !Has(assets, a.id)
    ensures Unique(assets + [a]) && PathOf(assets + [a], a.id) == Some(a.path)
    ensures OnlyWrites(assets, assets + [a], a.id) && Grown(assets, assets + [a])
    decreases |assets|
  {
    if assets != [] {
      assert !Has(assets[1..], a.id) by {
        assert forall k | 0 <= k < |assets| - 1 :: assets[1..][k] == assets[k + 1];
      }
      Appended(assets[1..], a);
      assert (assets + [a])[1..] == assets[1..] + [a];
    }
    GrownByPaths(assets, assets + [a], a.id);
  }

  lemma GrownByPaths(a: seq<Asset>, b: seq<Asset>, id: AssetId)
    requires OnlyWrites(a, b, id) && PathOf(b, id).Some?
    ensures Grown(a, b)
  {
    forall x: AssetId | Has(a, x) ensures Has(b, x) {
      if x != id { assert PathOf(b, x) == PathOf(a, x); }
    }
  }
}
