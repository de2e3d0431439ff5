/**
 * The marketing tool's brand store and its text and image rules.
 *
 * The brands file is a JSON object from brand id to a flat configuration
 * object; loading and saving it is plain persistence, so the store is the
 * map itself, held by a `BrandStore` whose methods change it as the
 * handlers change the loaded dictionary before writing it back. Every
 * configuration value is a string. Values the handlers obtain over the
 * network (the LinkedIn profile, fresh UUIDs) are parameters.
 */
module Brands {
  import opened Common

  /** A key of a brand configuration: the keys the handlers name, and any
      other key a configuration file may hold. */
  datatype Key =
    | BrandName | Description | TargetAudience | BrandVoice | KeyMessages
    | ProductServices | Competitors | Hashtags | Website | CreatedAt | UpdatedAt
    | LinkedInToken | LinkedInPersonUrn | LinkedInProfileName | LinkedInOrgId
    | LinkedInCompanyPage | FacebookToken | FacebookPageId
    | Other(name: string)

  type Config = map<Key, string>

  /** The platforms `PLATFORM_SPECS` describes, in its own order. */
  const Platforms: seq<string> := ["twitter", "linkedin", "instagram", "facebook"]

  // ---------------------------------------------------------------------------
  // Creating and updating a brand

  /** The form fields of `create_brand_config`. */
  datatype BrandInput = BrandInput(
    brandName: string,
    description: string,
    targetAudience: string,
    brandVoice: string,
    keyMessages: string,
    productServices: string,
    competitors: string,
    hashtags: string,
    website: string)

  /** The keys `create_brand_config` writes itself. */
  const OwnKeys: set<Key> := {
    BrandName, Description, TargetAudience, BrandVoice, KeyMessages,
    ProductServices, Competitors, Hashtags, Website, CreatedAt, UpdatedAt}

  /** The form with every field trimmed, as `create_brand_config` stores it. */
  function Trimmed(input: BrandInput): BrandInput {
    BrandInput(Strip(input.brandName), Strip(input.description), Strip(input.targetAudience),
               Strip(input.brandVoice), Strip(input.keyMessages), Strip(input.productServices),
               Strip(input.competitors), Strip(input.hashtags), Strip(input.website))
  }

  /** The keys `create_brand_config` writes, with their values. */
  function OwnFields(t: BrandInput, created: string, updated: string): (own: Config)
    ensures own.Keys == OwnKeys
    ensures && own[BrandName] == t.brandName && own[Description] == t.description
            && own[TargetAudience] == t.targetAudience && own[BrandVoice] == t.brandVoice
            && own[KeyMessages] == t.keyMessages && own[ProductServices] == t.productServices
            && own[Competitors] == t.competitors && own[Hashtags] == t.hashtags && own[Website] == t.website
    ensures own[CreatedAt] == created && own[UpdatedAt] == updated
  {
    map[BrandName := t.brandName, Description := t.description, TargetAudience := t.targetAudience,
        BrandVoice := t.brandVoice, KeyMessages := t.keyMessages, ProductServices := t.productServices,
        Competitors := t.competitors, Hashtags := t.hashtags, Website := t.website,
        CreatedAt := created, UpdatedAt := updated]
  }

  /** The configuration written for `input` over `existing` (empty for a new
      brand): the form fields trimmed, the creation stamp kept if there is
      one, a fresh update stamp, and every other existing key carried over. */
  function Merged(existing: Config, input: BrandInput, freshCreated: string, freshUpdated: string): (c: Config)
    ensures c.Keys == existing.Keys + OwnKeys
    ensures var t := Trimmed(input);
            && c[BrandName] == t.brandName && c[Description] == t.description
            && c[TargetAudience] == t.targetAudience && c[BrandVoice] == t.brandVoice
            && c[KeyMessages] == t.keyMessages && c[ProductServices] == t.productServices
            && c[Competitors] == t.competitors && c[Hashtags] == t.hashtags && c[Website] == t.website
    ensures c[CreatedAt] == (if CreatedAt in existing then existing[CreatedAt] else freshCreated)
    ensures c[UpdatedAt] == freshUpdated
    ensures forall k :: k in existing && k !in OwnKeys ==> c[k] == existing[k]
  {
    var created := if CreatedAt in existing then existing[CreatedAt] else freshCreated;
    var own := OwnFields(Trimmed(input), created, freshUpdated);
    existing + own
  }

  /** Saving the same form twice leaves the same configuration, apart from
      the update stamp: the merge is idempotent on every other key, and the
      first save's creation stamp survives. */
  lemma MergeTwice(existing: Config, input: BrandInput, created1: string, updated1: string, created2: string, updated2: string)
    ensures var once := Merged(existing, input, created1, updated1);
            Merged(once, Trimmed(input), created2, updated2) == once[UpdatedAt := updated2]
  {
    var once := Merged(existing, input, created1, updated1);
    var twice := Merged(once, Trimmed(input), created2, updated2);
    TrimmedTwice(input);
    assert twice.Keys == once.Keys;
    forall k | k in twice
      ensures twice[k] == once[UpdatedAt := updated2][k]
    {
    }
  }

  /** Trimming a trimmed form changes nothing. */
  lemma TrimmedTwice(input: BrandInput)
    ensures Trimmed(Trimmed(input)) == Trimmed(input)
  {
    StripIdempotent(input.brandName);
    StripIdempotent(input.description);
    StripIdempotent(input.targetAudience);
    StripIdempotent(input.brandVoice);
    StripIdempotent(input.keyMessages);
    StripIdempotent(input.productServices);
    StripIdempotent(input.competitors);
    StripIdempotent(input.hashtags);
    StripIdempotent(input.website);
  }

  // ---------------------------------------------------------------------------
  // Reading brands

  /** One entry of `list_brands`. */
  datatype BrandRow = BrandRow(brandId: string, brandName: string, description: string, voice: string, audience: string)

  /** The `list_brands` entry of one brand; a configuration missing one of
      the four keys it reads makes the handler fail (`KeyError`). */
  function ListEntry(brandId: string, c: Config): (r: Option<BrandRow>)
    ensures r.Some? <==> BrandName in c && Description in c && BrandVoice in c && TargetAudience in c
    ensures r.Some? ==> |r.value.description| <= 83 && |r.value.audience| <= 53
    ensures r.Some? ==> r.value.brandName == c[BrandName] && r.value.voice == c[BrandVoice]
    ensures r.Some? && |c[Description]| <= 80 ==> r.value.description == c[Description]
    ensures r.Some? && |c[TargetAudience]| <= 50 ==> r.value.audience == c[TargetAudience]
    ensures r.Some? ==> r.value.brandId == brandId
    ensures r.Some? && |c[Description]| > 80 ==> r.value.description == c[Description][..80] + "..."
    ensures r.Some? && |c[TargetAudience]| > 50 ==> r.value.audience == c[TargetAudience][..50] + "..."
  {
    if BrandName in c && Description in c && BrandVoice in c && TargetAudience in c then
      Some(BrandRow(brandId, c[BrandName], Abbreviate(c[Description], 80), c[BrandVoice],
                    Abbreviate(c[TargetAudience], 50)))
    else None
  }

  /** Python's `not s or not s.strip()`. */
  predicate Blank(s: string) {
    Strip(s) == ""
  }

  /** `platform.lower().strip()` */
  function NormalizePlatform(p: string): string {
    Strip(Lower(p))
  }

  /** The brand and platform checks of `generate_social_post` and
      `generate_social_post_with_image`: the brand first, then the normalised
      platform name. */
  function PostTarget(brands: map<string, Config>, brandId: string, platform: string): (r: Result<string>)
    ensures brandId !in brands ==> r.Err?
    ensures r.Ok? <==> brandId in brands && NormalizePlatform(platform) in Platforms
    ensures r.Ok? ==> r.value == NormalizePlatform(platform)
  {
    if brandId !in brands then Err("Brand '" + brandId + "' not found")
    else if NormalizePlatform(platform) !in Platforms then Err("Unknown platform '" + NormalizePlatform(platform) + "'")
    else Ok(NormalizePlatform(platform))
  }

  /** Why `repurpose_content` refuses a request. */
  datatype RepurposeError = UnknownBrand | ContentTooShort | UnknownPlatforms(invalid: seq<string>)

  /** `[p.strip().lower() for p in platforms.split(",")]` */
  function PlatformList(platforms: string): (r: seq<string>)
    ensures |r| == |Split(platforms, ',')|
  {
    var parts := Split(platforms, ',');
    seq(|parts|, i requires 0 <= i < |parts| => Lower(Strip(parts[i])))
  }

  /** Each entry of the list passes the same normalisation as a single
      platform name, although the two handlers strip and lower-case in
      opposite orders. */
  lemma PlatformListNormalized(platforms: string)
    ensures forall i :: 0 <= i < |PlatformList(platforms)| ==>
      PlatformList(platforms)[i] == NormalizePlatform(Split(platforms, ',')[i])
  {
    var parts := Split(platforms, ',');
    forall i | 0 <= i < |parts|
      ensures PlatformList(platforms)[i] == NormalizePlatform(parts[i])
    {
      StripLowerCommute(parts[i]);
    }
  }

  /** The entries of `list` that are not platforms, in list order. */
  function Invalid(list: seq<string>): (r: seq<string>)
    ensures forall p :: p in r <==> p in list && p !in Platforms
    decreases |list|
  {
    if list == [] then []
    else
      assert list == [list[0]] + list[1..];
      (if list[0] in Platforms then [] else [list[0]]) + Invalid(list[1..])
  }

  /** The platforms `PLATFORM_SPECS` lists that the request names, in the
      table's order. */
  function Chosen(list: seq<string>): (r: seq<string>)
    ensures forall p :: p in r <==> p in Platforms && p in list
  {
    Filter(Platforms, list)
  }

  function Filter(table: seq<string>, list: seq<string>): (r: seq<string>)
    ensures forall p :: p in r <==> p in table && p in list
    decreases |table|
  {
    if table == [] then []
    else
      assert table == [table[0]] + table[1..];
      (if table[0] in list then [table[0]] else []) + Filter(table[1..], list)
  }

  datatype RepurposeOutcome = RepurposeRefused(error: RepurposeError) | RepurposeFor(platforms: seq<string>)

  /** The checks of `repurpose_content`, in order: the brand, then content of
      at least 50 characters once stripped, then every named platform, all
      unknown ones reported together; on success, the platforms to write
      for. */
  function RepurposeTargets(brands: map<string, Config>, brandId: string, content: string, platforms: string)
    : (r: RepurposeOutcome)
    ensures brandId !in brands ==> r == RepurposeRefused(UnknownBrand)
    ensures brandId in brands && |Strip(content)| < 50 ==> r == RepurposeRefused(ContentTooShort)
    ensures brandId in brands && |Strip(content)| >= 50 && Invalid(PlatformList(platforms)) != [] ==>
      r == RepurposeRefused(UnknownPlatforms(Invalid(PlatformList(platforms))))
    ensures r.RepurposeFor? <==> brandId in brands && |Strip(content)| >= 50 && Invalid(PlatformList(platforms)) == []
    ensures r.RepurposeFor? ==> forall p :: p in r.platforms <==> p in PlatformList(platforms)
  {
    if brandId !in brands then RepurposeRefused(UnknownBrand)
    else if |Strip(content)| < 50 then RepurposeRefused(ContentTooShort)
    else
      var list := PlatformList(platforms);
      if Invalid(list) != [] then RepurposeRefused(UnknownPlatforms(Invalid(list)))
      else RepurposeFor(Chosen(list))
  }

  // ---------------------------------------------------------------------------
  // LinkedIn posting

  /** `text[:2997] + "..."` for text over 3000 characters. */
  function TruncatePost(text: string): (r: string)
    ensures |r| <= 3000
    ensures |text| <= 3000 ==> r == text
    ensures |text| > 3000 ==> |r| == 3000 && r[..2997] == text[..2997] && r[2997..] == "..."
  {
    if |text| > 3000 then text[..2997] + "..." else text
  }

  /** The text `post_to_linkedin` sends: the brand must exist and hold a
      LinkedIn token (checked first), the text must not be blank. */
  function LinkedInText(brands: map<string, Config>, brandId: string, text: string): (r: Result<string>)
    ensures r.Ok? <==> brandId in brands && LinkedInToken in brands[brandId] && !Blank(text)
    ensures r.Ok? ==> |r.value| <= 3000 && r.value == TruncatePost(text)
  {
    if brandId !in brands then Err("Brand '" + brandId + "' not found")
    else if LinkedInToken !in brands[brandId] then Err("LinkedIn not configured for brand '" + brandId + "'")
    else if Blank(text) then Err("Post text required")
    else Ok(TruncatePost(text))
  }

  /** The post's author: the organisation when an org id is configured,
      otherwise the member id the userinfo endpoint returned. */
  function PostAuthor(c: Config, memberId: Option<string>): (r: Result<string>)
    ensures LinkedInOrgId in c && c[LinkedInOrgId] != "" ==>
      r == Ok("urn:li:organization:" + c[LinkedInOrgId])
    ensures (LinkedInOrgId !in c || c[LinkedInOrgId] == "") ==>
      (r.Ok? <==> Truthy(memberId)) && (r.Ok? ==> r.value == "urn:li:person:" + memberId.value)
  {
    if LinkedInOrgId in c && c[LinkedInOrgId] != "" then Ok("urn:li:organization:" + c[LinkedInOrgId])
    else if Truthy(memberId) then Ok("urn:li:person:" + memberId.value)
    else Err("No member ID in userinfo response")
  }

  // ---------------------------------------------------------------------------
  // Replacement image

  const MaxImageBytes: nat := 3 * 1024 * 1024

  /** What `replace_linkedin_image` does with a decoded image. */
  datatype ImagePlan = ImagePlan(width: nat, height: nat, resized: bool, ext: string, jpeg: bool)

  /** `(d // 16) * 16` */
  function RoundDown16(d: nat): (r: nat)
    ensures r % 16 == 0 && r <= d < r + 16
  {
    (d / 16) * 16
  }

  /** The new size: both sides rounded down to a multiple of 16, unless either
      would drop below 400, in which case both sides stay as they were. */
  function NewSize(w: nat, h: nat): (r: (nat, nat))
    ensures r == (w, h) || (r.0 % 16 == 0 && r.1 % 16 == 0)
    ensures r.0 <= w && r.1 <= h
    ensures w - r.0 < 16 && h - r.1 < 16
    ensures RoundDown16(w) < 400 || RoundDown16(h) < 400 ==> r == (w, h)
    ensures RoundDown16(w) >= 400 && RoundDown16(h) >= 400 ==> r.0 >= 400 && r.1 >= 400
  {
    if RoundDown16(w) < 400 || RoundDown16(h) < 400 then (w, h) else (RoundDown16(w), RoundDown16(h))
  }

  /** `original_filename.split('.')[-1].lower()`, or 'png' when that is not
      one of jpg, jpeg, png, webp. */
  function ImageExtension(filename: string): (ext: string)
    ensures ext in ["jpg", "jpeg", "png", "webp"]
    ensures Lower(LastPiece(filename, '.')) in ["jpg", "jpeg", "png", "webp"] ==> ext == Lower(LastPiece(filename, '.'))
    ensures Lower(LastPiece(filename, '.')) !in ["jpg", "jpeg", "png", "webp"] ==> ext == "png"
  {
    var e := Lower(LastPiece(filename, '.'));
    if e in ["jpg", "jpeg", "png", "webp"] then e else "png"
  }

  /** `replace_linkedin_image` after decoding: more than 3 MiB is refused;
      otherwise the size rule, the extension rule, JPEG for jpg/jpeg and PNG
      for everything else (webp included). `dims` is `None` when the bytes
      are not an image the library can open. */
  function PlanReplacement(decodedBytes: nat, dims: Option<(nat, nat)>, filename: string): (r: Result<ImagePlan>)
    ensures decodedBytes > MaxImageBytes ==> r.Err?
    ensures r.Ok? <==> decodedBytes <= MaxImageBytes && dims.Some?
    ensures r.Ok? ==> (r.value.width, r.value.height) == NewSize(dims.value.0, dims.value.1)
    ensures r.Ok? ==> (r.value.resized <==> (r.value.width, r.value.height) != dims.value)
    ensures r.Ok? ==> r.value.ext == ImageExtension(filename)
    ensures r.Ok? ==> (r.value.jpeg <==> r.value.ext in ["jpg", "jpeg"])
  {
    if decodedBytes > MaxImageBytes then Err("Image too large")
    else if dims.None? then Err("cannot identify image file")
    else
      var (w, h) := dims.value;
      var size := NewSize(w, h);
      var ext := ImageExtension(filename);
      Ok(ImagePlan(size.0, size.1, size != (w, h), ext, ext in ["jpg", "jpeg"]))
  }

  /** A 1000x600 image becomes 992x592, a 410x1000 one 400x992, and a
      390x1000 one keeps its size because 390 rounds down to 384. */
  lemma NewSizeExamples()
    ensures NewSize(1000, 600) == (992, 592)
    ensures NewSize(410, 1000) == (400, 992)
    ensures NewSize(390, 1000) == (390, 1000)
  {
    assert RoundDown16(1000) == 992 && RoundDown16(600) == 592;
    assert RoundDown16(410) == 400 && RoundDown16(390) == 384;
  }

  // ---------------------------------------------------------------------------
  // The store

  class BrandStore {
    var brands: map<string, Config>

    constructor (initial: map<string, Config>)
      ensures brands == initial
    {
      brands := initial;
    }

    /** `create_brand_config`: the brand is created or merged; other brands
        are untouched. */
    method CreateOrUpdate(brandId: string, input: BrandInput, freshCreated: string, freshUpdated: string)
      modifies this
      ensures brands == old(brands)[brandId := Merged(if brandId in old(brands) then old(brands)[brandId] else map[],
                                                      input, freshCreated, freshUpdated)]
    {
      var existing := if brandId in brands then brands[brandId] else map[];
      brands := brands[brandId := Merged(existing, input, freshCreated, freshUpdated)];
    }

    /** `delete_brand_config`: removes only the named brand; an unknown id
        changes nothing. The handler reads the brand's name before deleting,
        so a configuration without one fails and stays. */
    method Delete(brandId: string) returns (err: Option<string>)
      modifies this
      ensures brandId !in old(brands) ==> err.Some? && brands == old(brands)
      ensures brandId in old(brands) && BrandName !in old(brands)[brandId] ==> err.Some? && brands == old(brands)
      ensures brandId in old(brands) && BrandName in old(brands)[brandId] ==> err.None? && brands == old(brands) - {brandId}
    {
      if brandId !in brands {
        return Some("Brand '" + brandId + "' not found");
      }
      if BrandName !in brands[brandId] {
        return Some("brand_name");
      }
      brands := brands - {brandId};
      err := None;
    }

    /** `save_linkedin_token`: blank brand id, blank token and unknown brand
        are refused in that order, before any change. Otherwise the trimmed
        token and the profile fields are stored, `linkedin_org_id` is set to
        the trimmed org id when that is non-blank and removed otherwise.
        `personUrn` and `profileName` are what the userinfo endpoint returned
        ("" when it failed); organisation mode stores "" for both. */
    method SaveLinkedInToken(brandId: string, token: string, orgId: string, personUrn: string, profileName: string)
      returns (err: Option<string>)
      modifies this
      ensures Blank(brandId) ==> err == Some("Brand ID required") && brands == old(brands)
      ensures !Blank(brandId) && Blank(token) ==> err == Some("Access token required") && brands == old(brands)
      ensures !Blank(brandId) && !Blank(token) && brandId !in old(brands) ==> err.Some? && brands == old(brands)
      ensures !Blank(brandId) && !Blank(token) && brandId in old(brands) ==>
        && err.None?
        && brands == old(brands)[brandId := LinkedInConfig(old(brands)[brandId], token, orgId, personUrn, profileName)]
    {
      if Blank(brandId) {
        return Some("Brand ID required");
      }
      if Blank(token) {
        return Some("Access token required");
      }
      if brandId !in brands {
        return Some("Brand '" + brandId + "' not found");
      }
      brands := brands[brandId := LinkedInConfig(brands[brandId], token, orgId, personUrn, profileName)];
      err := None;
    }

    /** `set_linkedin_company_page`: a blank URL, a URL without
        "linkedin.com/company/" and an unknown brand are refused in that
        order; otherwise only that brand's `linkedin_company_page` is set, to
        the URL as given. */
    method SetCompanyPage(brandId: string, pageUrl: string) returns (err: Option<string>)
      modifies this
      ensures Blank(pageUrl) ==> err == Some("Page URL required") && brands == old(brands)
      ensures !Blank(pageUrl) && !Contains(pageUrl, "linkedin.com/company/") ==>
        err == Some("Invalid company page URL") && brands == old(brands)
      ensures !Blank(pageUrl) && Contains(pageUrl, "linkedin.com/company/") && brandId !in old(brands) ==>
        err == Some("Brand not found") && brands == old(brands)
      ensures !Blank(pageUrl) && Contains(pageUrl, "linkedin.com/company/") && brandId in old(brands) ==>
        err.None? && brands == old(brands)[brandId := old(brands)[brandId][LinkedInCompanyPage := pageUrl]]
    {
      if Blank(pageUrl) {
        return Some("Page URL required");
      }
      if !Contains(pageUrl, "linkedin.com/company/") {
        return Some("Invalid company page URL");
      }
      if brandId !in brands {
        return Some("Brand not found");
      }
      brands := brands[brandId := brands[brandId][LinkedInCompanyPage := pageUrl]];
      err := None;
    }

    /** `save_facebook_token`: blank brand id, token or page id, then an
        unknown brand, are refused before any change; otherwise the trimmed
        token and page id are stored. */
    method SaveFacebookToken(brandId: string, token: string, pageId: string) returns (err: Option<string>)
      modifies this
      ensures Blank(brandId) || Blank(token) || Blank(pageId) || brandId !in old(brands) ==>
        err.Some? && brands == old(brands)
      ensures !Blank(brandId) && !Blank(token) && !Blank(pageId) && brandId in old(brands) ==>
        && err.None?
        && brands == old(brands)[brandId := old(brands)[brandId][FacebookToken := Strip(token)]
                                                                [FacebookPageId := Strip(pageId)]]
    {
      if Blank(brandId) {
        return Some("Brand ID required");
      }
      if Blank(token) {
        return Some("Access token required");
      }
      if Blank(pageId) {
        return Some("Page ID required");
      }
      if brandId !in brands {
        return Some("Brand '" + brandId + "' not found");
      }
      brands := brands[brandId := brands[brandId][FacebookToken := Strip(token)][FacebookPageId := Strip(pageId)]];
      err := None;
    }
  }

  /** A brand's configuration after a LinkedIn token is saved. */
  function LinkedInConfig(c: Config, token: string, orgId: string, personUrn: string, profileName: string): (r: Config)
    ensures r.Keys == c.Keys - {LinkedInOrgId} + {LinkedInToken, LinkedInPersonUrn, LinkedInProfileName}
                      + (if Strip(orgId) != "" then {LinkedInOrgId} else {})
    ensures r[LinkedInToken] == Strip(token)
    ensures LinkedInOrgId in r <==> Strip(orgId) != ""
    ensures LinkedInOrgId in r ==> r[LinkedInOrgId] == Strip(orgId)
    ensures r[LinkedInPersonUrn] == (if Strip(orgId) != "" then "" else personUrn)
    ensures r[LinkedInProfileName] == (if Strip(orgId) != "" then "" else profileName)
    ensures forall k :: k in c && !k.LinkedInToken? && !k.LinkedInPersonUrn? && !k.LinkedInProfileName? && !k.LinkedInOrgId?
                        ==> r[k] == c[k]
  {
    var org := Strip(orgId);
    var urn := if org != "" then "" else personUrn;
    var name := if org != "" then "" else profileName;
    var withToken := c[LinkedInToken := Strip(token)][LinkedInPersonUrn := urn][LinkedInProfileName := name];
    if org != "" then withToken[LinkedInOrgId := org] else withToken - {LinkedInOrgId}
  }

  /** After a token is saved with an organisation id, posts are authored by
      that organisation; after one is saved without, by the member. */
  lemma SavedOrgDecidesAuthor(c: Config, token: string, orgId: string, personUrn: string, profileName: string, memberId: Option<string>)
    ensures var saved := LinkedInConfig(c, token, orgId, personUrn, profileName);
            && (Strip(orgId) != "" ==> PostAuthor(saved, memberId) == Ok("urn:li:organization:" + Strip(orgId)))
            && (Strip(orgId) == "" ==> (PostAuthor(saved, memberId).Ok? <==> Truthy(memberId)))
  {
  }
}
