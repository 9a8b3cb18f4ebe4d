/** The extraction half of `CryptoMonitor.process_tokens`: everything it
    reads out of one upstream pool before the notification goes out. A pool
    either is skipped (no identity, already posted, unknown name), raises
    (a field of the wrong type), or yields a ready notification. */
module Extract {
  import opened Wrappers
  import opened PyStr
  import opened PyValue
  import opened Telegram

  // --------------------------------------------------------------- identity

  /** What `pool.get("coinType")`, the falsy test and `.lower()` give. `raw`
      is the `coinType` as sent upstream; `key` is its lower-cased form. */
  datatype Identity = NoKey | KeyFault(fault: Fault) | Key(key: string, raw: string)

  function CoinType(pool: Json): Json
    requires pool.JObj?
  {
    OrNull(Lookup(pool.members, "coinType"))
  }

  /** The identity of a pool: a missing or falsy `coinType` gives none, a
      `str` gives its lower-cased text, anything else raises. */
  function ReadIdentity(pool: Json): (id: Identity)
    ensures !pool.JObj? ==> id.KeyFault?
    ensures pool.JObj? ==> (id.NoKey? <==> !Truthy(CoinType(pool)))
    ensures pool.JObj? && id.KeyFault? ==> Truthy(CoinType(pool)) && !CoinType(pool).JStr?
    ensures id.Key? ==> pool.JObj? && CoinType(pool) == JStr(id.raw) && id.raw != ""
                        && id.key == Lower(id.raw)
  {
    match Get(pool, "coinType")
    case Err(f) => KeyFault(f)
    case Ok(c) =>
      var v := OrNull(c);
      if !Truthy(v) then NoKey
      else
        match LowerValue(v)
        case Err(f) => KeyFault(f)
        case Ok(k) => Key(k, v.s)
  }

  // ------------------------------------------------------------------- name

  const UnknownToken := "Unknown Token"

  /** The first truthy value of `vs`, or `default` when there is none: the
      value of `vs[0] or vs[1] or ... or default`. */
  function FirstTruthy(vs: seq<Json>, default: Json): (r: Json)
    ensures r == default || exists k :: 0 <= k < |vs| && vs[k] == r
    ensures r != default ==> Truthy(r)
  {
    if vs == [] then default
    else if Truthy(vs[0]) then vs[0]
    else FirstTruthy(vs[1..], default)
  }

  /** `FirstTruthy` stops at the first truthy value. */
  lemma {:induction false} FirstTruthyPicksFirst(vs: seq<Json>, default: Json, k: nat)
    requires k < |vs| && Truthy(vs[k]) && forall j :: 0 <= j < k ==> !Truthy(vs[j])
    ensures FirstTruthy(vs, default) == vs[k]
  {
    if k > 0 {
      FirstTruthyPicksFirst(vs[1..], default, k - 1);
    }
  }

  /** `FirstTruthy` of values that are all falsy is the default. */
  lemma {:induction false} FirstTruthyNone(vs: seq<Json>, default: Json)
    requires forall j :: 0 <= j < |vs| ==> !Truthy(vs[j])
    ensures FirstTruthy(vs, default) == default
  {
    if vs != [] {
      FirstTruthyNone(vs[1..], default);
    }
  }

  /** The four places a display name may come from, in the order tried. */
  function NameSources(meta: Json, pool: Json): seq<Json>
    requires meta.JObj? && pool.JObj?
  {
    [ OrNull(Lookup(meta.members, "name")), OrNull(Lookup(meta.members, "symbol")),
      OrNull(Lookup(pool.members, "name")), OrNull(Lookup(pool.members, "symbol")) ]
  }

  /** The `or` chain for the display name, evaluated left to right: metadata
      name, metadata symbol, pool name, pool symbol, then `"Unknown Token"`. */
  function NameCandidate(meta: Json, pool: Json): (r: Result<Json, Fault>)
    requires pool.JObj?
    ensures r.Ok? <==> meta.JObj?
    ensures meta.JObj? ==> r.value == FirstTruthy(NameSources(meta, pool), JStr(UnknownToken))
  {
    if !meta.JObj? then Err(NoAttribute(meta, "get"))
    else
      var vs := NameSources(meta, pool);
      if Truthy(vs[0]) then FirstTruthyPicksFirst(vs, JStr(UnknownToken), 0); Ok(vs[0])
      else if Truthy(vs[1]) then FirstTruthyPicksFirst(vs, JStr(UnknownToken), 1); Ok(vs[1])
      else if Truthy(vs[2]) then FirstTruthyPicksFirst(vs, JStr(UnknownToken), 2); Ok(vs[2])
      else if Truthy(vs[3]) then FirstTruthyPicksFirst(vs, JStr(UnknownToken), 3); Ok(vs[3])
      else FirstTruthyNone(vs, JStr(UnknownToken)); Ok(JStr(UnknownToken))
  }

  /** The display name: the chain's value, stripped. It must be a `str`. */
  function ResolveName(meta: Json, pool: Json): (r: Result<string, Fault>)
    requires pool.JObj?
    ensures r.Ok? ==> meta.JObj?
    ensures r.Ok? <==> NameCandidate(meta, pool).Ok? && NameCandidate(meta, pool).value.JStr?
    ensures r.Ok? ==> r.value == Strip(NameCandidate(meta, pool).value.s)
  {
    var v :- NameCandidate(meta, pool);
    StripValue(v)
  }

  /** A name of whitespace only is truthy, so the chain stops at it; it
      strips to `""`, which is not the rejected name. */
  lemma BlankNameAccepted(meta: Json, pool: Json, s: string)
    requires pool.JObj? && NameCandidate(meta, pool) == Ok(JStr(s))
    requires s != [] && forall k :: 0 <= k < |s| ==> IsSpace(s[k])
    ensures ResolveName(meta, pool) == Ok("")
  {
    assert LeadingSpaces(s) == |s|;
  }

  /** So a new pool named by whitespace only is not skipped as unknown: it
      goes on, under the empty name, to the field readings. */
  lemma BlankNameNotSkipped(pool: Json, key: string, raw: string, s: string)
    requires pool.JObj? && NameCandidate(DictOrEmpty(pool, "coinMetadata"), pool) == Ok(JStr(s))
    requires s != [] && forall k :: 0 <= k < |s| ==> IsSpace(s[k])
    ensures !Announce(pool, key, raw).Skip?
    ensures Announce(pool, key, raw).Ready? ==> Announce(pool, key, raw).draft.name == ""
  {
    BlankNameAccepted(DictOrEmpty(pool, "coinMetadata"), pool, s);
  }

  /** One space on each side of a clean text is stripped off. */
  lemma StripPadded(s: string)
    requires s != [] && !IsSpace(s[0]) && !IsSpace(s[|s| - 1])
    ensures Strip(" " + s + " ") == s
  {
    var padded := " " + s + " ";
    assert padded[1..] == s + " ";
    assert LeadingSpaces(s + " ") == 0;
    assert LeadingSpaces(padded) == 1;
    assert (s + " ")[..|s|] == s;
    assert TrailingSpaces(s) == 0;
    assert TrailingSpaces(s + " ") == 1;
  }

  /** A padded `"Unknown Token"` strips to the rejected name. */
  lemma PaddedUnknownRejected(meta: Json, pool: Json)
    requires pool.JObj? && NameCandidate(meta, pool) == Ok(JStr(" " + UnknownToken + " "))
    ensures ResolveName(meta, pool) == Ok(UnknownToken)
  {
    assert UnknownToken[0] == 'U' && UnknownToken[|UnknownToken| - 1] == 'n';
    StripPadded(UnknownToken);
  }

  // ---------------------------------------------------------------- socials

  const XPrefix := "https://x.com/"

  /** The profile URL for a Twitter handle: leading `@`s removed, then
      surrounding whitespace. */
  function TwitterUrl(handle: string): string {
    XPrefix + Strip(LStripChar(handle, '@'))
  }

  /** A `@` in front of a handle makes no difference. */
  lemma TwitterUrlIgnoresAt(handle: string)
    ensures TwitterUrl("@" + handle) == TwitterUrl(handle)
  {
    assert ("@" + handle)[1..] == handle;
  }

  /** Stripping a text that neither starts nor ends with whitespace keeps it. */
  lemma StripClean(s: string)
    requires s != [] ==> !IsSpace(s[0]) && !IsSpace(s[|s| - 1])
    ensures Strip(s) == s
  {
    if s != [] {
      assert LeadingSpaces(s) == 0;
      var r := Strip(s);
      assert |r| == |s|;
    }
  }

  /** A clean handle, without a leading `@` or surrounding whitespace, is
      embedded as it is. */
  lemma TwitterUrlOfCleanHandle(handle: string)
    requires handle != [] ==> handle[0] != '@' && !IsSpace(handle[0]) && !IsSpace(handle[|handle| - 1])
    ensures TwitterUrl(handle) == XPrefix + handle
  {
    StripClean(handle);
  }

  /** The `socials` dict from `creatorData`: a Twitter entry for a truthy
      `twitterHandle` (which must be a `str`), a Telegram entry holding the
      value of a truthy `telegramHandle` as it is. */
  function ReadSocials(cd: Json): (r: Result<SocialLinks, Fault>)
    ensures r.Ok? ==> cd.JObj?
    ensures cd.JObj? ==>
      var tw := OrNull(Lookup(cd.members, "twitterHandle"));
      var tg := OrNull(Lookup(cd.members, "telegramHandle"));
      && (r.Ok? <==> !Truthy(tw) || tw.JStr?)
      && (r.Ok? ==> (r.value.twitter == if Truthy(tw) then Some(TwitterUrl(tw.s)) else None))
      && (r.Ok? ==> (r.value.telegram == if Truthy(tg) then Some(Str(tg)) else None))
  {
    if !cd.JObj? then Err(NoAttribute(cd, "get"))
    else
    var t := OrNull(Lookup(cd.members, "twitterHandle"));
    var g := OrNull(Lookup(cd.members, "telegramHandle"));
    var twitter :- if !Truthy(t) then Ok(None)
                   else if t.JStr? then Ok(Some(TwitterUrl(t.s)))
                   else Err(NoAttribute(t, "lstrip"));
    Ok(SocialLinks(twitter, if Truthy(g) then Some(Str(g)) else None))
  }

  // --------------------------------------------------------- other fields

  /** `coin_metadata.get("icon_url") or coin_metadata.get("iconUrl")`. */
  function ImageValue(meta: Json): Json
    requires meta.JObj?
  {
    Or(OrNull(Lookup(meta.members, "icon_url")), OrNull(Lookup(meta.members, "iconUrl")))
  }

  /** `pool.get(key) or {}` on the pool itself, which is a dict. */
  function DictOrEmpty(pool: Json, key: string): Json
    requires pool.JObj?
  {
    Or(OrNull(Lookup(pool.members, key)), JObj([]))
  }

  /** The market-cap text: shown whenever the value is not `None`. */
  function MarketCapText(md: Json): (r: Result<Option<string>, Fault>)
    ensures r.Ok? <==> md.JObj?
    ensures md.JObj? ==> (r.value.Some? <==> OrNull(Lookup(md.members, "marketCap")) != JNull)
    ensures r.Ok? && r.value.Some? ==> r.value.value == Str(OrNull(Lookup(md.members, "marketCap")))
  {
    if !md.JObj? then Err(NoAttribute(md, "get"))
    else
      var v := OrNull(Lookup(md.members, "marketCap"));
      if v == JNull then Ok(None) else Ok(Some(Str(v)))
  }

  /** A market cap of zero is still shown. */
  lemma ZeroMarketCapShown()
    ensures MarketCapText(JObj([Member("marketCap", JInt(0))])) == Ok(Some("0"))
  {
  }

  /** `is_protected`, as `format_token_message` tests it with `is True` and
      `is False`: only a `bool` selects a line, and a missing flag is `False`. */
  function ProtectionFlag(pool: Json): (r: Option<bool>)
    requires pool.JObj?
    ensures Lookup(pool.members, "isProtected").None? ==> r == Some(false)
    ensures r.Some? <==> OrNull(Lookup(pool.members, "isProtected")).JBool?
                         || Lookup(pool.members, "isProtected").None?
    // a bool flag is passed on as it is
    ensures OrNull(Lookup(pool.members, "isProtected")).JBool? ==>
              r == Some(OrNull(Lookup(pool.members, "isProtected")).b)
  {
    var v := Lookup(pool.members, "isProtected").GetOr(JBool(false));
    if v.JBool? then Some(v.b) else None
  }

  /** The description text: metadata description, then pool description,
      then `"N/A"`. */
  function DescriptionText(meta: Json, pool: Json): (r: string)
    requires meta.JObj? && pool.JObj?
    ensures r != ""
    ensures (!Truthy(OrNull(Lookup(meta.members, "description")))
             && !Truthy(OrNull(Lookup(pool.members, "description")))) ==> r == "N/A"
    // a truthy metadata description wins, then a truthy pool description
    ensures Truthy(OrNull(Lookup(meta.members, "description"))) ==>
              r == Str(OrNull(Lookup(meta.members, "description")))
    ensures !Truthy(OrNull(Lookup(meta.members, "description")))
            && Truthy(OrNull(Lookup(pool.members, "description"))) ==>
              r == Str(OrNull(Lookup(pool.members, "description")))
  {
    var a := OrNull(Lookup(meta.members, "description"));
    var b := OrNull(Lookup(pool.members, "description"));
    Str(Or(Or(a, b), JStr("N/A")))
  }

  const DevInitial := "Dev Initial: "

  /** The dev-buy text: only for a truthy `creatorBalance`, which must be a
      number for its thousands grouping, with a ` (<percent>%)` suffix
      exactly when `creatorPercent` is truthy as well. */
  function DevBuyText(balance: Json, percent: Json): (r: Result<Option<string>, Fault>)
    ensures !Truthy(balance) ==> r == Ok(None)
    ensures Truthy(balance) ==> (r.Ok? <==> FormatGrouped(balance).Ok?)
    ensures r.Ok? && Truthy(balance) ==>
              r.value.Some? && StartsWith(r.value.value, DevInitial + FormatGrouped(balance).value + " tokens")
              && (EndsWith(r.value.value, "%)") <==> Truthy(percent))
    // the whole text: the grouped balance, then the percent suffix exactly when it is truthy
    ensures r.Ok? && Truthy(balance) && Truthy(percent) ==>
              r.value == Some(DevInitial + FormatGrouped(balance).value + " tokens" + " (" + Str(percent) + "%)")
    ensures r.Ok? && Truthy(balance) && !Truthy(percent) ==>
              r.value == Some(DevInitial + FormatGrouped(balance).value + " tokens")
  {
    if !Truthy(balance) then Ok(None)
    else
      var grouped :- FormatGrouped(balance);
      var text := DevInitial + grouped + " tokens";
      assert !EndsWith(text, "%)") by {
        assert text[|text| - 2..] == "ns";
      }
      Ok(Some(if Truthy(percent) then text + " (" + Str(percent) + "%)" else text))
  }

  /** `creator_address[:6]` and `[-4:]`: the creator address must be a `str`. */
  function CreatorText(v: Json): (r: Result<string, Fault>)
    ensures r.Ok? <==> v.JStr?
    ensures v.JStr? ==> r.value == v.s
  {
    if v.JStr? then Ok(v.s) else Err(Fault("'" + TypeName(v) + "' object is not subscriptable"))
  }

  /** The send choice: a truthy icon that starts with `data:image` goes out
      as a photo, any other icon as a text message; a truthy icon that is
      not a `str` raises on `startswith`. */
  function Route(image: Json): (r: Result<Option<string>, Fault>)
    ensures r.Err? <==> Truthy(image) && !image.JStr?
    ensures r.Ok? && r.value.Some? <==> image.JStr? && StartsWith(image.s, ImagePrefix)
    ensures r.Ok? && r.value.Some? ==> image == JStr(r.value.value)
  {
    if !Truthy(image) then Ok(None)
    else if !image.JStr? then Err(NoAttribute(image, "startswith"))
    else if StartsWith(image.s, ImagePrefix) then Ok(Some(image.s))
    else Ok(None)
  }

  // --------------------------------------------------------- the draft

  /** The arguments `format_token_message` is called with. */
  datatype Fields = Fields(
    name: string, symbol: string, contract: string, coinType: string, creator: string,
    socials: Option<SocialLinks>, isProtected: Option<bool>, description: Option<string>,
    marketCap: Option<string>, devBuy: Option<string>)

  function FieldSections(f: Fields): seq<Section> {
    Sections(f.name, f.symbol, f.contract, f.coinType, f.creator, f.socials, f.isProtected,
             f.description, f.marketCap, f.devBuy)
  }

  function Message(f: Fields): string {
    FormatTokenMessage(f.name, f.symbol, f.contract, f.coinType, f.creator, f.socials,
                       f.isProtected, f.description, f.marketCap, f.devBuy)
  }

  /** A notification ready to go out: the key and name it will be recorded
      under, the formatter's arguments and the message it builds, its buy
      button, and the image when it goes out as a photo. */
  datatype Draft = Draft(key: string, name: string, fields: Fields, text: string,
                         button: Option<Keyboard>, photo: Option<string>)

  datatype SkipReason = NoCoinType | AlreadyPosted | UnknownName

  datatype Prepared = Skip(reason: SkipReason) | Fail(fault: Fault) | Ready(draft: Draft)

  /** The socials argument: the dict when it is non-empty, else `None`. */
  function SocialsArg(s: SocialLinks): Option<SocialLinks> {
    if HasLinks(s) then Some(s) else None
  }

  /** The fields and the send choice for a pool whose identity is `key`
      (from the raw `coinType` `raw`) and whose name is `name`. */
  function Gather(pool: Json, meta: Json, key: string, raw: string, name: string): (r: Result<Draft, Fault>)
    requires pool.JObj? && meta.JObj?
    ensures r.Ok? ==> r.value.key == key && r.value.name == name
    ensures r.Ok? ==> var f := r.value.fields;
              f.name == name && f.contract == key && f.coinType == raw
              && f.description.Some? && f.description.value != ""
    ensures r.Ok? ==> r.value.button == if raw != "" then Some(CreateBuyButton(raw)) else None
    ensures r.Ok? ==> r.value.text == Message(r.value.fields)
    // where each other argument of the formatter comes from
    ensures r.Ok? ==> var f := r.value.fields;
              && ReadSocials(DictOrEmpty(pool, "creatorData")).Ok?
              && f.socials == SocialsArg(ReadSocials(DictOrEmpty(pool, "creatorData")).value)
              && f.symbol == Str(Lookup(meta.members, "symbol").GetOr(JStr("")))
              && CreatorText(OrNull(Lookup(pool.members, "creatorAddress"))) == Ok(f.creator)
              && MarketCapText(DictOrEmpty(pool, "marketData")) == Ok(f.marketCap)
              && f.isProtected == ProtectionFlag(pool)
              && f.description == Some(DescriptionText(meta, pool))
              && DevBuyText(OrNull(Lookup(pool.members, "creatorBalance")),
                            OrNull(Lookup(pool.members, "creatorPercent"))) == Ok(f.devBuy)
              && Route(ImageValue(meta)) == Ok(r.value.photo)
    // it raises exactly when one of the field readings raises
    ensures r.Err? <==>
              || ReadSocials(DictOrEmpty(pool, "creatorData")).Err?
              || MarketCapText(DictOrEmpty(pool, "marketData")).Err?
              || DevBuyText(OrNull(Lookup(pool.members, "creatorBalance")),
                            OrNull(Lookup(pool.members, "creatorPercent"))).Err?
              || CreatorText(OrNull(Lookup(pool.members, "creatorAddress"))).Err?
              || Route(ImageValue(meta)).Err?
  {
    var socials :- ReadSocials(DictOrEmpty(pool, "creatorData"));
    var image := ImageValue(meta);
    var creator := OrNull(Lookup(pool.members, "creatorAddress"));
    var marketCap :- MarketCapText(DictOrEmpty(pool, "marketData"));
    var isProtected := ProtectionFlag(pool);
    var description := DescriptionText(meta, pool);
    var devBuy :- DevBuyText(OrNull(Lookup(pool.members, "creatorBalance")),
                             OrNull(Lookup(pool.members, "creatorPercent")));
    var symbol := Lookup(meta.members, "symbol").GetOr(JStr(""));
    var creatorText :- CreatorText(creator);
    var fields := Fields(name, Str(symbol), key, raw, creatorText, SocialsArg(socials), isProtected,
                         Some(description), marketCap, devBuy);
    // `pool_id` is the same `coinType` value, so it is truthy here
    var button := if raw != "" then Some(CreateBuyButton(raw)) else None;
    var photo :- Route(image);
    Ok(Draft(key, name, fields, Message(fields), button, photo))
  }

  /** A new pool past the posted check: the name gate, then the fields. */
  function Announce(pool: Json, key: string, raw: string): (p: Prepared)
    requires pool.JObj?
    ensures p.Skip? <==> ResolveName(DictOrEmpty(pool, "coinMetadata"), pool) == Ok(UnknownToken)
    ensures p.Skip? ==> p.reason == UnknownName
    ensures p.Ready? ==> p.draft.key == key && p.draft.name != UnknownToken
  {
    var meta := DictOrEmpty(pool, "coinMetadata");
    match ResolveName(meta, pool)
    case Err(f) => Fail(f)
    case Ok(name) =>
      if name == UnknownToken then Skip(UnknownName)
      else
        match Gather(pool, meta, key, raw, name)
        case Err(f) => Fail(f)
        case Ok(d) => Ready(d)
  }

  /** One pool up to the send: the identity and the posted check (which
      lower-cases the key once more), then `Announce`. `posted` holds the
      keys already recorded. */
  function Prepare(pool: Json, posted: set<string>): (p: Prepared)
    ensures p.Ready? ==> ReadIdentity(pool).Key? && p.draft.key == ReadIdentity(pool).key
    ensures p.Ready? ==> p.draft.name != UnknownToken && Lower(p.draft.key) !in posted
  {
    match ReadIdentity(pool)
    case NoKey => Skip(NoCoinType)
    case KeyFault(f) => Fail(f)
    case Key(key, raw) =>
      if Lower(key) in posted then Skip(AlreadyPosted) else Announce(pool, key, raw)
  }

  /** A pool without a truthy `coinType` is skipped. */
  lemma SkipWithoutCoinType(pool: Json, posted: set<string>)
    ensures Prepare(pool, posted) == Skip(NoCoinType) <==> ReadIdentity(pool).NoKey?
  {
  }

  /** A pool whose lower-cased `coinType` is already recorded is skipped. */
  lemma SkipWhenPosted(pool: Json, posted: set<string>)
    ensures Prepare(pool, posted) == Skip(AlreadyPosted) <==>
              ReadIdentity(pool).Key? && ReadIdentity(pool).key in posted
  {
    if ReadIdentity(pool).Key? {
      LowerIdempotent(ReadIdentity(pool).raw);
    }
  }

  /** A new pool whose name resolves to `"Unknown Token"` after stripping is
      skipped. */
  lemma SkipUnknownName(pool: Json, posted: set<string>)
    ensures Prepare(pool, posted) == Skip(UnknownName) <==>
              && ReadIdentity(pool).Key? && ReadIdentity(pool).key !in posted
              && ResolveName(DictOrEmpty(pool, "coinMetadata"), pool) == Ok(UnknownToken)
  {
    if ReadIdentity(pool).Key? {
      LowerIdempotent(ReadIdentity(pool).raw);
    }
  }

  /** A ready notification is for a lower-cased key not yet posted, under a
      name that is not `"Unknown Token"`, with a buy button for the raw
      `coinType`, and it always has a description section. */
  lemma ReadyDraft(pool: Json, posted: set<string>)
    requires Prepare(pool, posted).Ready?
    ensures var d := Prepare(pool, posted).draft;
            var id := ReadIdentity(pool);
            && id.Key? && d.key == id.key == Lower(id.raw) && d.key !in posted
            && d.name != UnknownToken && d.name == d.fields.name && d.fields.contract == d.key
            && d.button == Some(CreateBuyButton(id.raw))
            && Find(FieldSections(d.fields), 3).Some?
  {
    var id := ReadIdentity(pool);
    var d := Prepare(pool, posted).draft;
    var meta := DictOrEmpty(pool, "coinMetadata");
    assert id.Key? && Lower(id.key) !in posted && Prepare(pool, posted) == Announce(pool, id.key, id.raw);
    var name := ResolveName(meta, pool).value;
    assert Gather(pool, meta, id.key, id.raw, name) == Ok(d);
    assert d.key == id.key == Lower(id.raw) && d.key !in posted by {
      LowerIdempotent(id.raw);
    }
    var f := d.fields;
    assert f.description.Some? && f.description.value != "";
    assert Find(FieldSections(f), 3).Some? by {
      SectionsShown(f.name, f.symbol, f.contract, f.coinType, f.creator, f.socials, f.isProtected,
                    f.description, f.marketCap, f.devBuy);
    }
  }

  /** A ready draft comes from `Gather` on the pool, its metadata and its
      resolved name. */
  lemma ReadyGathered(pool: Json, posted: set<string>)
    requires Prepare(pool, posted).Ready?
    ensures pool.JObj? && ReadIdentity(pool).Key?
    ensures var meta := DictOrEmpty(pool, "coinMetadata");
            var id := ReadIdentity(pool);
            && meta.JObj? && ResolveName(meta, pool).Ok?
            && Gather(pool, meta, id.key, id.raw, ResolveName(meta, pool).value) == Ok(Prepare(pool, posted).draft)
  {
    var id := ReadIdentity(pool);
    assert id.Key? && Prepare(pool, posted) == Announce(pool, id.key, id.raw);
  }

  /** A ready pool without `isProtected` is announced with the
      "Anti-Sniper NOT Active" line. */
  lemma ReadyWithoutFlagWarns(pool: Json, posted: set<string>)
    requires pool.JObj? && Lookup(pool.members, "isProtected").None?
    requires Prepare(pool, posted).Ready?
    ensures Find(FieldSections(Prepare(pool, posted).draft.fields), 7) == Some(Protection(false))
  {
    ReadyGathered(pool, posted);
    var f := Prepare(pool, posted).draft.fields;
    assert f.isProtected == Some(false);
    SectionsShown(f.name, f.symbol, f.contract, f.coinType, f.creator, f.socials, f.isProtected,
                  f.description, f.marketCap, f.devBuy);
  }

  /** A ready pool whose market cap is given, even as `0`, is announced with
      the market-cap line, showing the value as `str` renders it. */
  lemma ReadyShowsMarketCap(pool: Json, posted: set<string>)
    requires pool.JObj? && DictOrEmpty(pool, "marketData").JObj?
    requires OrNull(Lookup(DictOrEmpty(pool, "marketData").members, "marketCap")) != JNull
    requires Prepare(pool, posted).Ready?
    ensures var v := OrNull(Lookup(DictOrEmpty(pool, "marketData").members, "marketCap"));
            Find(FieldSections(Prepare(pool, posted).draft.fields), 4) == Some(MarketCap(Str(v)))
  {
    ReadyGathered(pool, posted);
    var f := Prepare(pool, posted).draft.fields;
    SectionsShown(f.name, f.symbol, f.contract, f.coinType, f.creator, f.socials, f.isProtected,
                  f.description, f.marketCap, f.devBuy);
  }
}
