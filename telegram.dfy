/** `TelegramBot`: the chat-id rule of its constructor, the message and
    button builders, and the two delivery calls. The Bot API itself is a
    `Channel` object: it records every request the bot makes and answers
    each one from a script of replies. */
module Telegram {
  import opened Wrappers
  import opened PyStr
  import opened PyValue

  const DefaultToken := "YOUR_TELEGRAM_BOT_TOKEN"
  const DefaultChatId := "-1002928353318"

  /** Channel ids are negative: a `CHAT_ID` without a leading `-` gets one. */
  function NormalizeChatId(raw: string): (id: string)
    ensures |id| > 0 && id[0] == '-'
    ensures StartsWith(raw, "-") ==> id == raw
    ensures !StartsWith(raw, "-") ==> id == "-" + raw
  {
    if StartsWith(raw, "-") then raw else "-" + raw
  }

  /** Normalizing an id that is already normalized changes nothing. */
  lemma NormalizeChatIdIdempotent(raw: string)
    ensures NormalizeChatId(NormalizeChatId(raw)) == NormalizeChatId(raw)
  {
  }

  /** The bot's configuration, fixed at construction. */
  datatype Bot = Bot(token: string, chatId: string, apiUrl: string)

  /** `TelegramBot()`, given the `TELEGRAM_TOKEN` and `CHAT_ID` environment
      variables (`None` when unset). */
  function NewBot(tokenEnv: Option<string>, chatIdEnv: Option<string>): (b: Bot)
    ensures b.token == tokenEnv.GetOr(DefaultToken)
    ensures b.chatId == NormalizeChatId(chatIdEnv.GetOr(DefaultChatId))
    ensures b.apiUrl == "https://api.telegram.org/bot" + b.token
  {
    var token := tokenEnv.GetOr(DefaultToken);
    Bot(token, NormalizeChatId(chatIdEnv.GetOr(DefaultChatId)), "https://api.telegram.org/bot" + token)
  }

  // ---------------------------------------------------------------- message

  /** The `socials` dict handed to the formatter: an X profile URL and a
      Telegram link, each present or not. */
  datatype SocialLinks = SocialLinks(twitter: Option<string>, telegram: Option<string>)

  /** The dict is truthy when it has at least one entry. */
  predicate HasLinks(s: SocialLinks) {
    s.twitter.Some? || s.telegram.Some?
  }

  /** The blocks a notification is made of, in the order it prints them. */
  datatype Section =
    | Headline(tokenName: string)
    | Title(tokenName: string, symbol: string)
    | Addresses(contract: string, coinType: string)
    | Description(text: string)
    | MarketCap(text: string)
    | DevBuy(text: string)
    | Socials(links: seq<string>)
    | Protection(active: bool)
    | CreatedBy(address: string)

  function Rank(s: Section): nat {
    match s
    case Headline(_) => 0
    case Title(_, _) => 1
    case Addresses(_, _) => 2
    case Description(_) => 3
    case MarketCap(_) => 4
    case DevBuy(_) => 5
    case Socials(_) => 6
    case Protection(_) => 7
    case CreatedBy(_) => 8
  }

  const XLinkPrefix := "\U{1F426} <a href='"
  const TgLinkPrefix := "\U{1F4E2} <a href='"

  /** The `links` list: the X link first, then the TG link, each only when
      its entry exists. */
  function LinkList(s: SocialLinks): (links: seq<string>)
    ensures |links| == (if s.twitter.Some? then 1 else 0) + (if s.telegram.Some? then 1 else 0)
    ensures s.twitter.Some? ==> links[0] == XLinkPrefix + s.twitter.value + "'>X</a>"
    ensures s.telegram.Some? ==> links[|links| - 1] == TgLinkPrefix + s.telegram.value + "'>TG</a>"
  {
    (if s.twitter.Some? then [XLinkPrefix + s.twitter.value + "'>X</a>"] else [])
    + (if s.telegram.Some? then [TgLinkPrefix + s.telegram.value + "'>TG</a>"] else [])
  }

  /** Every section outranks the ones before it, so no kind occurs twice. */
  predicate Ranked(r: seq<Section>) {
    forall i, j :: 0 <= i < j < |r| ==> Rank(r[i]) < Rank(r[j])
  }

  /** Two ranked lists, all of the first below all of the second, make a ranked list. */
  lemma RankedJoin(a: seq<Section>, b: seq<Section>)
    requires Ranked(a) && Ranked(b)
    requires forall i, j :: 0 <= i < |a| && 0 <= j < |b| ==> Rank(a[i]) < Rank(b[j])
    ensures Ranked(a + b)
  {
    forall i, j | 0 <= i < j < |a + b| ensures Rank((a + b)[i]) < Rank((a + b)[j]) {
      if j < |a| {
        assert (a + b)[i] == a[i] && (a + b)[j] == a[j];
      } else if i >= |a| {
        assert (a + b)[i] == b[i - |a|] && (a + b)[j] == b[j - |a|];
      } else {
        assert (a + b)[i] == a[i] && (a + b)[j] == b[j - |a|];
      }
    }
  }

  /** The section of rank `k` in `r`, if there is one. */
  function Find(r: seq<Section>, k: nat): (f: Option<Section>)
    ensures f.Some? ==> Rank(f.value) == k
  {
    if r == [] then None
    else if Rank(r[|r| - 1]) == k then Some(r[|r| - 1])
    else Find(r[..|r| - 1], k)
  }

  /** No section of rank `k` in a list whose ranks all lie below `k`. */
  lemma {:induction false} FindAbsent(r: seq<Section>, k: nat)
    requires forall i :: 0 <= i < |r| ==> Rank(r[i]) < k
    ensures Find(r, k) == None
  {
    if r != [] {
      FindAbsent(r[..|r| - 1], k);
    }
  }

  /** Looking in `a + b` finds the section of `b` if `b` has one, else that of `a`. */
  lemma {:induction false} FindAppend(a: seq<Section>, b: seq<Section>, k: nat)
    ensures Find(a + b, k) == if Find(b, k).Some? then Find(b, k) else Find(a, k)
  {
    if b == [] {
      assert a + b == a;
    } else {
      assert (a + b)[..|a + b| - 1] == a + b[..|b| - 1];
      FindAppend(a, b[..|b| - 1], k);
    }
  }

  /** The sections in `slots` that are there, in order. */
  function Present(slots: seq<Option<Section>>): (p: seq<Section>)
    ensures |p| <= |slots|
  {
    if slots == [] then []
    else Present(slots[..|slots| - 1]) + (if slots[|slots| - 1].Some? then [slots[|slots| - 1].value] else [])
  }

  /** Slot `i` can only hold a section of rank `3 + i`. */
  predicate SlotRanks(slots: seq<Option<Section>>) {
    forall i :: 0 <= i < |slots| && slots[i].Some? ==> Rank(slots[i].value) == 3 + i
  }

  /** The last slot taken off, the rest keeps its ranks. */
  lemma SlotRanksInit(slots: seq<Option<Section>>)
    requires SlotRanks(slots) && slots != []
    ensures SlotRanks(slots[..|slots| - 1])
  {
    var init := slots[..|slots| - 1];
    forall i | 0 <= i < |init| && init[i].Some? ensures Rank(init[i].value) == 3 + i {
      assert init[i] == slots[i];
    }
  }

  /** The sections present are ranked, between ranks 3 and `3 + |slots|`. */
  lemma {:induction false} PresentRanked(slots: seq<Option<Section>>)
    requires SlotRanks(slots)
    ensures Ranked(Present(slots))
    ensures forall j :: 0 <= j < |Present(slots)| ==> 3 <= Rank(Present(slots)[j]) < 3 + |slots|
  {
    if slots != [] {
      var n := |slots|;
      SlotRanksInit(slots);
      PresentRanked(slots[..n - 1]);
      var q := Present(slots[..n - 1]);
      if slots[n - 1].Some? {
        var v := slots[n - 1].value;
        assert Present(slots) == q + [v];
        RankedJoin(q, [v]);
      } else {
        assert Present(slots) == q;
      }
    }
  }

  /** Rank `3 + i` is found among the sections present exactly when slot `i`
      is filled, and it is that slot's section. */
  lemma {:induction false} PresentFind(slots: seq<Option<Section>>, i: nat)
    requires SlotRanks(slots) && i < |slots|
    ensures Find(Present(slots), 3 + i) == slots[i]
    decreases |slots|
  {
    var n := |slots|;
    var init := slots[..n - 1];
    var q := Present(init);
    var tail := if slots[n - 1].Some? then [slots[n - 1].value] else [];
    assert Present(slots) == q + tail;
    FindAppend(q, tail, 3 + i);
    SlotRanksInit(slots);
    if tail != [] {
      assert Rank(tail[0]) == 3 + (n - 1);
      assert tail[..0] == [];
    }
    if i < n - 1 {
      assert Find(tail, 3 + i) == None;
      PresentFind(init, i);
      assert init[i] == slots[i];
      assert Find(q, 3 + i) == slots[i];
      assert Find(q + tail, 3 + i) == slots[i];
    } else if tail == [] {
      assert i == n - 1 && slots[i].None?;
      assert Find(tail, 3 + i) == None;
      PresentRanked(init);
      FindAbsent(q, 3 + i);
      assert Find(q + tail, 3 + i) == None;
    } else {
      assert Find(tail, 3 + i) == Some(tail[0]);
      assert Find(q + tail, 3 + i) == slots[i];
    }
  }

  /** Below the fixed head and above the creator line, the message's
      sections are those of the middle part. */
  lemma FrameFind(head: seq<Section>, p: seq<Section>, last: Section, k: nat)
    requires forall i :: 0 <= i < |head| ==> Rank(head[i]) < k
    requires Rank(last) != k
    ensures Find(head + p + [last], k) == Find(p, k)
  {
    assert (head + p + [last])[..|head + p|] == head + p;
    FindAppend(head, p, k);
    FindAbsent(head, k);
  }

  /** The optional sections of `format_token_message`, in the order it
      tests for them: a description and a dev-buy text when truthy, a market
      cap when not `None`, socials for a non-empty dict, and a protection
      line when the flag is a `bool`. */
  function Slots(
    socials: Option<SocialLinks>, isProtected: Option<bool>, description: Option<string>,
    marketCap: Option<string>, devBuy: Option<string>): seq<Option<Section>>
  {
    [ if description.Some? && description.value != "" then Some(Description(description.value)) else None,
      if marketCap.Some? then Some(MarketCap(marketCap.value)) else None,
      if devBuy.Some? && devBuy.value != "" then Some(DevBuy(devBuy.value)) else None,
      if socials.Some? && HasLinks(socials.value) then Some(Socials(LinkList(socials.value))) else None,
      if isProtected.Some? then Some(Protection(isProtected.value)) else None ]
  }

  /** The sections of `format_token_message`: the fixed head, the optional
      sections in their order, and the creator line. */
  function Sections(
    tokenName: string, symbol: string, contract: string, coinType: string, creator: string,
    socials: Option<SocialLinks>, isProtected: Option<bool>, description: Option<string>,
    marketCap: Option<string>, devBuy: Option<string>): (r: seq<Section>)
    ensures 4 <= |r| <= 9 && r[0] == Headline(tokenName) && r[|r| - 1] == CreatedBy(creator)
  {
    var head := [Headline(tokenName), Title(tokenName, symbol), Addresses(contract, coinType)];
    head + Present(Slots(socials, isProtected, description, marketCap, devBuy)) + [CreatedBy(creator)]
  }

  /** The sections are ranked, so no kind occurs twice: the fixed head, then
      each filled slot at its own rank, then the creator line. */
  lemma SectionsLayout(
    tokenName: string, symbol: string, contract: string, coinType: string, creator: string,
    socials: Option<SocialLinks>, isProtected: Option<bool>, description: Option<string>,
    marketCap: Option<string>, devBuy: Option<string>)
    ensures var r := Sections(tokenName, symbol, contract, coinType, creator, socials, isProtected,
                              description, marketCap, devBuy);
            && Ranked(r)
            && r[..3] == [Headline(tokenName), Title(tokenName, symbol), Addresses(contract, coinType)]
            && var slots := Slots(socials, isProtected, description, marketCap, devBuy);
               forall i :: 0 <= i < |slots| ==> Find(r, 3 + i) == slots[i]
  {
    var head := [Headline(tokenName), Title(tokenName, symbol), Addresses(contract, coinType)];
    var slots := Slots(socials, isProtected, description, marketCap, devBuy);
    var p := Present(slots);
    var last := CreatedBy(creator);
    PresentRanked(slots);
    RankedJoin(head, p);
    RankedJoin(head + p, [last]);
    forall i | 0 <= i < |slots| ensures Find(head + p + [last], 3 + i) == slots[i] {
      FrameFind(head, p, last, 3 + i);
      PresentFind(slots, i);
    }
    assert (head + p + [last])[..3] == head;
  }

  /** Which optional sections a message has, and with what content. */
  lemma SectionsShown(
    tokenName: string, symbol: string, contract: string, coinType: string, creator: string,
    socials: Option<SocialLinks>, isProtected: Option<bool>, description: Option<string>,
    marketCap: Option<string>, devBuy: Option<string>)
    ensures var r := Sections(tokenName, symbol, contract, coinType, creator, socials, isProtected,
                              description, marketCap, devBuy);
      // description and dev buy: only for a truthy (non-empty) argument
      && Find(r, 3) == (if description.Some? && description.value != "" then Some(Description(description.value)) else None)
      // market cap: whenever it is not None, so a zero market cap is shown
      && Find(r, 4) == (if marketCap.Some? then Some(MarketCap(marketCap.value)) else None)
      && Find(r, 5) == (if devBuy.Some? && devBuy.value != "" then Some(DevBuy(devBuy.value)) else None)
      // socials: for a non-empty dict, with its links
      && Find(r, 6) == (if socials.Some? && HasLinks(socials.value) then Some(Socials(LinkList(socials.value))) else None)
      // protection: True and False each give their line, None gives neither
      && Find(r, 7) == (if isProtected.Some? then Some(Protection(isProtected.value)) else None)
  {
    var r := Sections(tokenName, symbol, contract, coinType, creator, socials, isProtected,
                      description, marketCap, devBuy);
    var slots := Slots(socials, isProtected, description, marketCap, devBuy);
    SectionsLayout(tokenName, symbol, contract, coinType, creator, socials, isProtected,
                   description, marketCap, devBuy);
    assert Find(r, 3 + 0) == slots[0] && Find(r, 3 + 1) == slots[1] && Find(r, 3 + 2) == slots[2];
    assert Find(r, 3 + 3) == slots[3] && Find(r, 3 + 4) == slots[4];
  }

  /** `addr[:6] + "..." + addr[-4:]`. */
  function ShortAddress(addr: string): string {
    Take(addr, 6) + "..." + TakeLast(addr, 4)
  }

  /** For an address of ten characters or more the label is its first six
      characters, three dots and its last four. */
  lemma ShortAddressOfLongAddress(addr: string)
    requires |addr| >= 10
    ensures |ShortAddress(addr)| == 13
    ensures ShortAddress(addr)[..6] == addr[..6]
    ensures ShortAddress(addr)[6..9] == "..."
    ensures ShortAddress(addr)[9..] == addr[|addr| - 4..]
  {
  }

  const SocialsPrefix := "\U{1F4CA} <b>Socials:</b> "
  const CreatorPrefix := "\U{1F468}\U{200D}\U{1F4BB} <b>Created By:</b> <a href='https://suiscan.xyz/mainnet/account/"

  /** The text one section contributes to the message. */
  function Render(s: Section): string {
    match s
    case Headline(name) =>
      "\U{1F4E3} <b>" + Upper(name) + "</b>\n"
      + "deployed on <a href='https://blast.fun'>Blast.fun</a> \U{1F195}!\n\n"
    case Title(name, symbol) => "\U{1FA99} <b>" + name + " - $" + symbol + "</b>\n"
    case Addresses(contract, coinType) => "<code>" + contract + "</code>\n<code>" + coinType + "</code>\n\n"
    case Description(text) => "\U{1F4DD} <b>Description:</b> " + text + "\n\n"
    case MarketCap(text) => "\U{1F4B0} <b>Market Cap:</b> " + text + "\n\n"
    case DevBuy(text) => "\U{26A1} <b>" + text + "</b>\n\n"
    case Socials(links) => SocialsPrefix + Join(links, " | ") + "\n\n"
    case Protection(active) =>
      if active then "\U{1F6A8} <b>Anti-Sniper Protection Active</b>\n\n"
      else "\U{26A0}\U{FE0F} <b>Anti-Sniper NOT Active</b>\n\n"
    case CreatedBy(addr) => CreatorPrefix + addr + "'>" + ShortAddress(addr) + "</a>"
  }

  /** With both handles, the socials line lists the X link, then `" | "`,
      then the TG link. */
  lemma SocialsLinkOrder(x: string, tg: string)
    ensures Join(LinkList(SocialLinks(Some(x), Some(tg))), " | ")
         == (XLinkPrefix + x + "'>X</a>") + " | " + (TgLinkPrefix + tg + "'>TG</a>")
  {
    var links := LinkList(SocialLinks(Some(x), Some(tg)));
    assert links[1..] == [TgLinkPrefix + tg + "'>TG</a>"];
  }

  function Concat(ss: seq<string>): (r: string)
    ensures ss != [] ==> StartsWith(r, ss[0])
  {
    if ss == [] then "" else ss[0] + Concat(ss[1..])
  }

  lemma {:induction false} ConcatEndsWithLast(ss: seq<string>)
    requires ss != []
    ensures |ss[|ss| - 1]| <= |Concat(ss)|
    ensures Concat(ss)[|Concat(ss)| - |ss[|ss| - 1]|..] == ss[|ss| - 1]
  {
    if |ss| > 1 {
      ConcatEndsWithLast(ss[1..]);
    }
  }

  function RenderAll(ss: seq<Section>): seq<string> {
    seq(|ss|, k requires 0 <= k < |ss| => Render(ss[k]))
  }

  /** `format_token_message`: the HTML text of a notification, the sections'
      texts in order. */
  function FormatTokenMessage(
    tokenName: string, symbol: string, contract: string, coinType: string, creator: string,
    socials: Option<SocialLinks>, isProtected: Option<bool>, description: Option<string>,
    marketCap: Option<string>, devBuy: Option<string>): string
  {
    Concat(RenderAll(Sections(tokenName, symbol, contract, coinType, creator, socials, isProtected,
                              description, marketCap, devBuy)))
  }

  /** The headline opens with the upper-cased name in bold. */
  lemma HeadlineOpens(tokenName: string)
    ensures StartsWith(Render(Headline(tokenName)), "\U{1F4E3} <b>" + Upper(tokenName) + "</b>\n")
  {
    var prefix := "\U{1F4E3} <b>" + Upper(tokenName) + "</b>\n";
    assert Render(Headline(tokenName))
           == prefix + "deployed on <a href='https://blast.fun'>Blast.fun</a> \U{1F195}!\n\n";
  }

  lemma StartsWithTrans(s: string, t: string, u: string)
    requires StartsWith(s, t) && StartsWith(t, u)
    ensures StartsWith(s, u)
  {
    assert s[..|u|] == s[..|t|][..|u|];
  }

  /** Sections from a headline to a creator line render to a text that
      opens with the upper-cased name and closes with the creator link. */
  lemma RenderedBookends(ss: seq<Section>, tokenName: string, creator: string)
    requires ss != [] && ss[0] == Headline(tokenName) && ss[|ss| - 1] == CreatedBy(creator)
    ensures var text := Concat(RenderAll(ss));
            StartsWith(text, "\U{1F4E3} <b>" + Upper(tokenName) + "</b>\n")
            && EndsWith(text, Render(CreatedBy(creator)))
  {
    var parts := RenderAll(ss);
    var text := Concat(parts);
    assert StartsWith(text, "\U{1F4E3} <b>" + Upper(tokenName) + "</b>\n") by {
      assert parts[0] == Render(Headline(tokenName));
      HeadlineOpens(tokenName);
      StartsWithTrans(text, parts[0], "\U{1F4E3} <b>" + Upper(tokenName) + "</b>\n");
    }
    assert EndsWith(text, Render(CreatedBy(creator))) by {
      assert parts[|parts| - 1] == Render(CreatedBy(creator));
      ConcatEndsWithLast(parts);
    }
  }

  /** The message opens with the upper-cased name and closes with the
      creator link. */
  lemma MessageBookends(
    tokenName: string, symbol: string, contract: string, coinType: string, creator: string,
    socials: Option<SocialLinks>, isProtected: Option<bool>, description: Option<string>,
    marketCap: Option<string>, devBuy: Option<string>)
    ensures var text := FormatTokenMessage(tokenName, symbol, contract, coinType, creator, socials,
                                           isProtected, description, marketCap, devBuy);
            StartsWith(text, "\U{1F4E3} <b>" + Upper(tokenName) + "</b>\n")
            && EndsWith(text, Render(CreatedBy(creator)))
  {
    RenderedBookends(Sections(tokenName, symbol, contract, coinType, creator, socials, isProtected,
                              description, marketCap, devBuy), tokenName, creator);
  }

  // ----------------------------------------------------------------- button

  datatype Button = Button(text: string, url: string)

  /** `reply_markup`: rows of inline buttons. */
  datatype Keyboard = Keyboard(inlineKeyboard: seq<seq<Button>>)

  const BuyText := "\U{1F680} BUY TOKEN"
  const BuyUrlPrefix := "https://t.me/RaidenXTradeBot?start=Blastn_sw_"

  /** `create_buy_button`: one row holding one button, whose deep link
      carries at most the first 20 characters of the coin type. */
  function CreateBuyButton(coinType: string): (k: Keyboard)
    ensures |k.inlineKeyboard| == 1 && |k.inlineKeyboard[0]| == 1
    ensures k.inlineKeyboard[0][0].text == BuyText
    ensures var url := k.inlineKeyboard[0][0].url;
            StartsWith(url, BuyUrlPrefix) && |url| - |BuyUrlPrefix| == Min(20, |coinType|)
            && url[|BuyUrlPrefix|..] == coinType[..|url| - |BuyUrlPrefix|]
  {
    Keyboard([[Button(BuyText, BuyUrlPrefix + Take(coinType, 20))]])
  }

  /** Two coin types give the same button exactly when they agree on their
      first 20 characters. */
  lemma BuyButtonDependsOnPrefix(a: string, b: string)
    ensures CreateBuyButton(a) == CreateBuyButton(b) <==> Take(a, 20) == Take(b, 20)
  {
    if CreateBuyButton(a) == CreateBuyButton(b) {
      var ua, ub := BuyUrlPrefix + Take(a, 20), BuyUrlPrefix + Take(b, 20);
      assert ua == CreateBuyButton(a).inlineKeyboard[0][0].url;
      assert ua[|BuyUrlPrefix|..] == Take(a, 20);
      assert ub[|BuyUrlPrefix|..] == Take(b, 20);
    }
  }

  // --------------------------------------------------------------- delivery

  /** A request to the Bot API. Every request has `parse_mode` HTML; a text
      message also disables link previews. `imageData` is the part of a
      data URI after its first comma, which the bot base64-decodes. */
  datatype Request =
    | SendMessageRequest(url: string, chatId: string, text: string, markup: Option<Keyboard>)
    | SendPhotoRequest(url: string, chatId: string, imageData: string, caption: string, markup: Option<Keyboard>)

  /** The request `send_message` makes. */
  function MessageRequest(bot: Bot, text: string, markup: Option<Keyboard>): Request {
    SendMessageRequest(bot.apiUrl + "/sendMessage", bot.chatId, text, markup)
  }

  function IndexOf(s: string, c: char): (r: Option<nat>)
    ensures r.Some? ==> r.value < |s| && s[r.value] == c && forall k :: 0 <= k < r.value ==> s[k] != c
    ensures r.None? ==> forall k :: 0 <= k < |s| ==> s[k] != c
  {
    if s == [] then None
    else if s[0] == c then Some(0)
    else var r := IndexOf(s[1..], c); if r.Some? then Some(r.value + 1) else None
  }

  const ImagePrefix := "data:image"

  /** The request `send_photo` makes, if any. Only a `data:image` URI is
      sent; one without a comma makes `split(',', 1)` raise, which
      `send_photo` catches, so neither reaches the network. */
  function PhotoRequest(bot: Bot, photo: string, caption: string, markup: Option<Keyboard>): (r: Option<Request>)
    ensures r.Some? ==> StartsWith(photo, ImagePrefix) && r.value.SendPhotoRequest? && r.value.caption == caption
    ensures r.Some? <==> StartsWith(photo, ImagePrefix) && IndexOf(photo, ',').Some?
  {
    if !StartsWith(photo, ImagePrefix) then None
    else
      var comma :- IndexOf(photo, ',');
      Some(SendPhotoRequest(bot.apiUrl + "/sendPhoto", bot.chatId, photo[comma + 1..], caption, markup))
  }

  /** The reply to the next request: the API's `result`, or `None` for a
      request that failed in any way. An exhausted script answers `None`. */
  function NextReply(replies: seq<Option<Json>>): Option<Json> {
    if replies == [] then None else replies[0]
  }

  function LaterReplies(replies: seq<Option<Json>>): seq<Option<Json>> {
    if replies == [] then [] else replies[1..]
  }

  /** The Telegram Bot API as the bot sees it. */
  class Channel {
    /** What the API will answer to the coming requests, in order. */
    var replies: seq<Option<Json>>
    /** Every request received so far, in order. */
    var requests: seq<Request>

    constructor (script: seq<Option<Json>>)
      ensures replies == script && requests == []
    {
      replies := script;
      requests := [];
    }

    method Post(r: Request) returns (answer: Option<Json>)
      modifies this
      ensures requests == old(requests) + [r]
      ensures answer == NextReply(old(replies)) && replies == LaterReplies(old(replies))
    {
      answer := NextReply(replies);
      replies := LaterReplies(replies);
      requests := requests + [r];
    }
  }

  /** `send_message`: one request; the API's `result` on success, `None` otherwise. */
  method SendMessage(bot: Bot, channel: Channel, text: string, markup: Option<Keyboard>)
    returns (result: Option<Json>)
    modifies channel
    ensures channel.requests == old(channel.requests) + [MessageRequest(bot, text, markup)]
    ensures result == NextReply(old(channel.replies)) && channel.replies == LaterReplies(old(channel.replies))
  {
    result := channel.Post(MessageRequest(bot, text, markup));
  }

  /** `send_photo`: `None` without any request for an unsupported format. */
  method SendPhoto(bot: Bot, channel: Channel, photo: string, caption: string, markup: Option<Keyboard>)
    returns (result: Option<Json>)
    modifies channel
    ensures var req := PhotoRequest(bot, photo, caption, markup);
            if req.Some? then
              channel.requests == old(channel.requests) + [req.value]
              && result == NextReply(old(channel.replies)) && channel.replies == LaterReplies(old(channel.replies))
            else
              result.None? && channel.requests == old(channel.requests) && channel.replies == old(channel.replies)
  {
    var req := PhotoRequest(bot, photo, caption, markup);
    if req.Some? {
      result := channel.Post(req.value);
    } else {
      result := None;
    }
  }
}
