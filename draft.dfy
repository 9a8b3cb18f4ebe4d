/** The earlier, truncated `process_tokens` of `monitor.py`: the same
    extraction up to the send choice, except that it builds the dev-buy text
    with a nested `if` and passes no description to the formatter. */
module DraftMonitor {
  import opened Wrappers
  import opened PyStr
  import opened PyValue
  import opened Telegram
  import opened Extract

  /** The dev-buy text, with its two forms written out: only for a truthy
      balance, with the percentage when that is truthy too. */
  function VariantDevBuyText(balance: Json, percent: Json): Result<Option<string>, Fault> {
    if !Truthy(balance) then Ok(None)
    else
      var grouped :- FormatGrouped(balance);
      if Truthy(percent) then Ok(Some(DevInitial + grouped + " tokens (" + Str(percent) + "%)"))
      else Ok(Some(DevInitial + grouped + " tokens"))
  }

  lemma AppendPercent(a: string, p: string)
    ensures a + " tokens (" + p + "%)" == a + " tokens" + " (" + p + "%)"
  {
    assert " tokens (" == " tokens" + " (";
  }

  /** Both ways of building the dev-buy text give the same text. */
  lemma DevBuyVariantsAgree(balance: Json, percent: Json)
    ensures VariantDevBuyText(balance, percent) == DevBuyText(balance, percent)
  {
    if Truthy(balance) && FormatGrouped(balance).Ok? {
      var text := DevInitial + FormatGrouped(balance).value + " tokens";
      if Truthy(percent) {
        var p := Str(percent);
        assert DevBuyText(balance, percent) == Ok(Some(text + " (" + p + "%)"));
        assert VariantDevBuyText(balance, percent)
               == Ok(Some(DevInitial + FormatGrouped(balance).value + " tokens (" + p + "%)"));
        AppendPercent(DevInitial + FormatGrouped(balance).value, p);
      } else {
        assert DevBuyText(balance, percent) == Ok(Some(text));
      }
    }
  }

  /** The fields as this variant gathers them: no description. */
  function VariantGather(pool: Json, meta: Json, key: string, raw: string, name: string): Result<Draft, Fault>
    requires pool.JObj? && meta.JObj?
  {
    var socials :- ReadSocials(DictOrEmpty(pool, "creatorData"));
    var image := ImageValue(meta);
    var creator := OrNull(Lookup(pool.members, "creatorAddress"));
    var marketCap :- MarketCapText(DictOrEmpty(pool, "marketData"));
    var isProtected := ProtectionFlag(pool);
    var devBuy :- VariantDevBuyText(OrNull(Lookup(pool.members, "creatorBalance")),
                                    OrNull(Lookup(pool.members, "creatorPercent")));
    var symbol := Lookup(meta.members, "symbol").GetOr(JStr(""));
    var creatorText :- CreatorText(creator);
    var fields := Fields(name, Str(symbol), key, raw, creatorText, SocialsArg(socials), isProtected,
                         None, marketCap, devBuy);
    var button := if raw != "" then Some(CreateBuyButton(raw)) else None;
    var photo :- Route(image);
    Ok(Draft(key, name, fields, Message(fields), button, photo))
  }

  function VariantAnnounce(pool: Json, key: string, raw: string): Prepared
    requires pool.JObj?
  {
    var meta := DictOrEmpty(pool, "coinMetadata");
    match ResolveName(meta, pool)
    case Err(f) => Fail(f)
    case Ok(name) =>
      if name == UnknownToken then Skip(UnknownName)
      else
        match VariantGather(pool, meta, key, raw, name)
        case Err(f) => Fail(f)
        case Ok(d) => Ready(d)
  }

  /** `monitor.py`'s pool handling up to the send choice. */
  function VariantPrepare(pool: Json, posted: set<string>): Prepared {
    match ReadIdentity(pool)
    case NoKey => Skip(NoCoinType)
    case KeyFault(f) => Fail(f)
    case Key(key, raw) =>
      if Lower(key) in posted then Skip(AlreadyPosted) else VariantAnnounce(pool, key, raw)
  }

  /** A prepared pool with the description argument dropped, and the
      message built without it. */
  function WithoutDescription(p: Prepared): (q: Prepared)
    ensures q.Ready? <==> p.Ready?
    ensures q.Ready? ==> q.draft.fields.description.None? && q.draft.text == Message(q.draft.fields)
    // everything else the draft carries stays as it was
    ensures q.Ready? ==> && q.draft.key == p.draft.key && q.draft.name == p.draft.name
                         && q.draft.button == p.draft.button && q.draft.photo == p.draft.photo
                         && q.draft.fields == p.draft.fields.(description := None)
    ensures !p.Ready? ==> q == p
  {
    match p
    case Ready(d) =>
      var f := d.fields.(description := None);
      Ready(d.(fields := f, text := Message(f)))
    case _ => p
  }

  lemma GatherVariantsAgree(pool: Json, meta: Json, key: string, raw: string, name: string)
    requires pool.JObj? && meta.JObj?
    ensures var g := Gather(pool, meta, key, raw, name);
            var v := VariantGather(pool, meta, key, raw, name);
            && (v.Ok? <==> g.Ok?)
            && (v.Err? ==> v == g)
            && (v.Ok? ==> var f := g.value.fields.(description := None);
                          v.value == g.value.(fields := f, text := Message(f)))
  {
    DevBuyVariantsAgree(OrNull(Lookup(pool.members, "creatorBalance")),
                        OrNull(Lookup(pool.members, "creatorPercent")));
  }

  /** The variant skips, fails and sends on exactly the same pools as
      `CryptoMonitor.process_tokens`, with the same message fields except
      the description. */
  lemma VariantIsMainWithoutDescription(pool: Json, posted: set<string>)
    ensures VariantPrepare(pool, posted) == WithoutDescription(Prepare(pool, posted))
  {
    var id := ReadIdentity(pool);
    if id.Key? && Lower(id.key) !in posted {
      AnnounceVariantsAgree(pool, id.key, id.raw);
    }
  }

  lemma AnnounceVariantsAgree(pool: Json, key: string, raw: string)
    requires pool.JObj?
    ensures VariantAnnounce(pool, key, raw) == WithoutDescription(Announce(pool, key, raw))
  {
    var meta := DictOrEmpty(pool, "coinMetadata");
    var rn := ResolveName(meta, pool);
    if rn.Ok? && rn.value != UnknownToken {
      GatherVariantsAgree(pool, meta, key, raw, rn.value);
    }
  }

  /** So this variant's messages never have a description section. */
  lemma VariantNeverDescribes(pool: Json, posted: set<string>)
    requires VariantPrepare(pool, posted).Ready?
    ensures var f := VariantPrepare(pool, posted).draft.fields;
            Find(FieldSections(f), 3).None?
  {
    VariantIsMainWithoutDescription(pool, posted);
    var f := VariantPrepare(pool, posted).draft.fields;
    SectionsShown(f.name, f.symbol, f.contract, f.coinType, f.creator, f.socials, f.isProtected,
                  f.description, f.marketCap, f.devBuy);
  }
}
