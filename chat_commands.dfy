/** The command interpreter behind `POST /webhook/whatsapp` in
    services/backend/server.js: the message is split into tokens, the first
    token picks the command, and an `order` command's remaining tokens are
    read as (item, quantity) pairs, resolved against the shop's available
    items and priced. The parts that read and write the store (shop lookup,
    order numbering, order creation) are in module OrderDesk. */
module ChatCommands {
  import opened Wrappers
  import opened Text

  // ---------------------------------------------------------------- data

  /** An available menu item as the webhook reads it. `externalId` is the
      empty string when the item has none. */
  datatype MenuItem = MenuItem(name: string, price: int, externalId: string)

  datatype Command =
    | MenuCmd(shopPhone: string)
    | OrderCmd(shopPhone: string, rest: seq<string>)
    | StatusCmd(orderId: string)
    | HelpCmd

  /** One requested line: the trimmed item token and its quantity. */
  datatype Pair = Pair(token: string, qty: int)

  /** A line of the created order: `{ name, qty, price }`. */
  datatype OrderLine = OrderLine(name: string, qty: int, price: int)

  /** What an `order` command comes to once its tokens are read: the
      tokens that matched nothing, or the priced lines and the total. */
  datatype Outcome =
    | Unresolved(tokens: seq<string>)
    | Priced(lines: seq<OrderLine>, total: int)

  // ---------------------------------------------------------------- dispatch

  /** The token list the handler works on: the trimmed body split on runs of
      white space, empty pieces dropped. */
  function Tokens(body: string): seq<string>
  {
    Words(body)
  }

  /** The first token, lower-cased, selects the branch; `menu` and `status`
      need a second token and `order` at least three tokens in all. */
  function Dispatch(parts: seq<string>): (c: Command)
    ensures c.OrderCmd? ==> |c.rest| >= 1
  {
    var cmd := Lower(if |parts| > 0 then parts[0] else "");
    if cmd == "menu" && |parts| > 1 && parts[1] != "" then MenuCmd(parts[1])
    else if cmd == "order" && |parts| >= 3 then OrderCmd(parts[1], parts[2..])
    else if cmd == "status" && |parts| > 1 && parts[1] != "" then StatusCmd(parts[1])
    else HelpCmd
  }

  /** The command a message body asks for: anything but help names its
      word and its argument, the first and second words of the body. */
  function Parse(body: string): (c: Command)
    ensures !c.HelpCmd? ==> |Tokens(body)| >= 2
    ensures c.MenuCmd? ==> Lower(Tokens(body)[0]) == "menu" && c.shopPhone == Tokens(body)[1]
    ensures c.OrderCmd? ==>
              Lower(Tokens(body)[0]) == "order" && c.shopPhone == Tokens(body)[1] && c.rest == Tokens(body)[2..]
    ensures c.StatusCmd? ==> Lower(Tokens(body)[0]) == "status" && c.orderId == Tokens(body)[1]
  {
    Dispatch(Tokens(body))
  }

  /** A message that would produce the given command. */
  function Render(c: Command): string
  {
    match c
    case MenuCmd(p) => Join(["menu", p], " ")
    case OrderCmd(p, rest) => Join(["order", p] + rest, " ")
    case StatusCmd(id) => Join(["status", id], " ")
    case HelpCmd => "help"
  }

  /** The commands a sender can type: every argument a single token, and an
      order with at least one item token. */
  predicate WellFormed(c: Command)
  {
    match c
    case MenuCmd(p) => IsWord(p)
    case OrderCmd(p, rest) => IsWord(p) && |rest| >= 1 && forall k :: 0 <= k < |rest| ==> IsWord(rest[k])
    case StatusCmd(id) => IsWord(id)
    case HelpCmd => true
  }

  /** Every well-formed command typed with single spaces is read back as
      itself. */
  lemma ParseRender(c: Command)
    requires WellFormed(c)
    ensures Parse(Render(c)) == c
  {
    match c
    case MenuCmd(p) => ParseRenderWith(["menu", p], c);
    case OrderCmd(p, rest) => ParseRenderWith(["order", p] + rest, c);
    case StatusCmd(id) => ParseRenderWith(["status", id], c);
    case HelpCmd =>
      WordsOfWord("help");
      assert Lower("help")[0] == 'h';
  }

  lemma ParseRenderWith(ws: seq<string>, c: Command)
    requires WellFormed(c) && !c.HelpCmd?
    requires ws == match c
      case MenuCmd(p) => ["menu", p]
      case OrderCmd(p, rest) => ["order", p] + rest
      case StatusCmd(id) => ["status", id]
      case HelpCmd => []
    ensures Parse(Render(c)) == c
  {
    assert forall k :: 0 <= k < |ws| ==> IsWord(ws[k]);
    WordsOfJoin(ws);
    LowerOfLowerCase(ws[0]);
    if c.OrderCmd? {
      assert ws[2..] == c.rest;
    }
  }

  lemma LowerOfLowerCase(s: string)
    requires forall i :: 0 <= i < |s| ==> !('A' <= s[i] <= 'Z')
    ensures Lower(s) == s
  {
  }

  /** The command word is read without regard to case. */
  lemma DispatchIgnoresCase(parts: seq<string>, first: string)
    requires |parts| > 0 && Lower(first) == Lower(parts[0])
    ensures Dispatch(parts[0 := first]) == Dispatch(parts)
  {
    var q := parts[0 := first];
    assert q[1..] == parts[1..];
  }

  /** Any first word other than the three commands, and any command missing
      its arguments, gets the help text. */
  lemma DispatchHelp(parts: seq<string>)
    requires |parts| <= 1 || (Lower(parts[0]) != "menu" && Lower(parts[0]) != "order" && Lower(parts[0]) != "status")
    ensures Dispatch(parts) == HelpCmd
  {
  }

  // ---------------------------------------------------------------- pairing

  /** `qtyToken ? Math.max(1, parseInt(qtyToken, 10) || 1) : 1`: a missing
      token, one that does not start with a number, or one that reads as 0
      all mean 1. */
  function QtyOf(qtyToken: Option<string>): (q: int)
    ensures q >= 1
  {
    match qtyToken
    case None => 1
    case Some(t) =>
      if t == "" then 1
      else
        var parsed := match ParseInt(t) case None => 0 case Some(v) => v;
        var n := if parsed == 0 then 1 else parsed;
        if n < 1 then 1 else n
  }

  /** The k-th pair: tokens `2k` and `2k + 1` after the shop contact. */
  function PairAt(rest: seq<string>, k: nat): (p: Pair)
    requires 2 * k < |rest|
    ensures p.qty >= 1
  {
    Pair(Trim(rest[2 * k]), QtyOf(if 2 * k + 1 < |rest| then Some(rest[2 * k + 1]) else None))
  }

  /** All pairs, a trailing item token without a quantity included. */
  function PairsOf(rest: seq<string>): (ps: seq<Pair>)
    ensures |ps| == (|rest| + 1) / 2
  {
    seq((|rest| + 1) / 2, k requires 0 <= k < (|rest| + 1) / 2 => PairAt(rest, k))
  }

  /** The handler's `for (let i = 0; i < rest.length; i += 2)` loop. */
  method PairTokens(rest: seq<string>) returns (pairs: seq<Pair>)
    ensures pairs == PairsOf(rest)
  {
    pairs := [];
    var i := 0;
    while i < |rest|
      invariant i % 2 == 0 && i <= |rest| + 1
      invariant |pairs| == i / 2
      invariant forall k :: 0 <= k < i / 2 ==> 2 * k < |rest| && pairs[k] == PairAt(rest, k)
    {
      var qtyToken := if i + 1 < |rest| then Some(rest[i + 1]) else None;
      pairs := pairs + [Pair(Trim(rest[i]), QtyOf(qtyToken))];
      i := i + 2;
    }
  }

  /** The item and quantity tokens a sender types for the given pairs. */
  function Flatten(ps: seq<Pair>): (ts: seq<string>)
    ensures |ts| == 2 * |ps|
  {
    if ps == [] then [] else [ps[0].token, IntToString(ps[0].qty)] + Flatten(ps[1..])
  }

  lemma {:induction false} FlattenAt(ps: seq<Pair>, k: nat)
    requires k < |ps|
    ensures Flatten(ps)[2 * k] == ps[k].token && Flatten(ps)[2 * k + 1] == IntToString(ps[k].qty)
  {
    if k > 0 { FlattenAt(ps[1..], k - 1); }
  }

  lemma ParseIntOfNatToString(n: nat)
    ensures ParseInt(NatToString(n)) == Some(n)
  {
    var s := NatToString(n);
    assert TrimStart(s) == s;
    assert !IsDigit(' ');
    assert s[0] != '-' && s[0] != '+';
    assert LeadingDigits(s) == s;
    NatToStringRoundTrip(n);
  }

  /** A positive quantity written in decimal is read back unchanged. */
  lemma QtyOfNatToString(n: nat)
    requires n >= 1
    ensures QtyOf(Some(NatToString(n))) == n
  {
    ParseIntOfNatToString(n);
  }

  /** Typing single-token items with positive quantities and reading the
      tokens back as pairs gives the same pairs. */
  lemma PairsOfFlatten(ps: seq<Pair>)
    requires forall k :: 0 <= k < |ps| ==> IsWord(ps[k].token) && ps[k].qty >= 1
    ensures PairsOf(Flatten(ps)) == ps
  {
    var ts := Flatten(ps);
    assert |PairsOf(ts)| == |ps| by {
      assert (2 * |ps| + 1) / 2 == |ps|;
    }
    forall k | 0 <= k < |ps|
      ensures PairsOf(ts)[k] == ps[k]
    {
      PairAtFlatten(ps, k);
    }
  }

  lemma PairAtFlatten(ps: seq<Pair>, k: nat)
    requires k < |ps| && IsWord(ps[k].token) && ps[k].qty >= 1
    ensures PairAt(Flatten(ps), k) == ps[k]
  {
    var ts := Flatten(ps);
    FlattenAt(ps, k);
    TrimNoSpace(ps[k].token);
    QtyOfNatToString(ps[k].qty);
    assert ts[2 * k + 1] == NatToString(ps[k].qty);
  }

  /** An odd number of item tokens leaves the last item with quantity 1. */
  lemma TrailingItemGetsOne(rest: seq<string>)
    requires |rest| % 2 == 1
    ensures PairsOf(rest)[|PairsOf(rest)| - 1] == Pair(Trim(rest[|rest| - 1]), 1)
  {
  }

  // ---------------------------------------------------------------- resolution

  /** The external-code lookup key: trimmed and upper-cased. */
  function CodeKey(s: string): string
  {
    Upper(Trim(s))
  }

  /** The item carries an external code whose key is `key`. */
  predicate HasCode(item: MenuItem, key: string)
  {
    item.externalId != "" && CodeKey(item.externalId) == key
  }

  /** The item's trimmed name equals the token, ignoring case. */
  predicate NameMatches(item: MenuItem, token: string)
  {
    Lower(Trim(item.name)) == Lower(Trim(token))
  }

  /** `/^[A-Za-z]$/` followed by the letter's offset from `A`. */
  function LetterIndex(t: string): (r: Option<nat>)
    ensures r.Some? ==> r.value < 26
  {
    if |t| == 1 && IsAsciiLetter(t[0]) then Some(UpperChar(t[0]) as int - 'A' as int) else None
  }

  /** Exactly a one-character token that is an ASCII letter addresses a
      position, its place in the alphabet, in either case. */
  lemma LetterIndexIsAlphabetPlace(t: string)
    ensures LetterIndex(t).Some? <==> |t| == 1 && IsAsciiLetter(t[0])
    ensures LetterIndex(t).Some? ==>
              var n := LetterIndex(t).value;
              n < 26 && (t[0] as int == 'A' as int + n || t[0] as int == 'a' as int + n)
  {
  }

  /** The item the code map holds for `key`: the LAST item with that code,
      since later items overwrite earlier ones in `extMap`. */
  function LastWithCode(items: seq<MenuItem>, key: string): (r: Option<nat>)
    ensures r.Some? ==> r.value < |items| && HasCode(items[r.value], key)
  {
    if items == [] then None
    else if HasCode(items[|items| - 1], key) then Some(|items| - 1)
    else LastWithCode(items[..|items| - 1], key)
  }

  /** `menuItems.find(...)` by name: the FIRST item whose name matches. */
  function FirstWithName(items: seq<MenuItem>, token: string): (r: Option<nat>)
    ensures r.Some? ==> r.value < |items| && NameMatches(items[r.value], token)
  {
    if items == [] then None
    else if NameMatches(items[0], token) then Some(0)
    else match FirstWithName(items[1..], token)
      case None => None
      case Some(i) => Some(i + 1)
  }

  /** The item a token orders: an in-range letter, else the external code,
      else the name. */
  function Resolve(items: seq<MenuItem>, token: string): (r: Option<nat>)
    ensures r.Some? ==> r.value < |items|
  {
    var letter := LetterIndex(token);
    if letter.Some? && letter.value < |items| then letter
    else
      var byCode := LastWithCode(items, CodeKey(token));
      if byCode.Some? then byCode else FirstWithName(items, token)
  }

  /** A single letter naming an existing position. */
  predicate InRangeLetter(items: seq<MenuItem>, t: string)
  {
    LetterIndex(t).Some? && LetterIndex(t).value < |items|
  }

  /** Item `i` answers the token in one of the three ways. */
  predicate Answers(items: seq<MenuItem>, t: string, i: nat)
    requires i < |items|
  {
    LetterIndex(t) == Some(i) || HasCode(items[i], CodeKey(t)) || NameMatches(items[i], t)
  }

  /** The resolution rule stated by priority, independently of `Resolve`: a
      letter in range wins; otherwise the last item with the code; otherwise,
      when no item has the code, the first item with the name. */
  predicate ResolvesTo(items: seq<MenuItem>, t: string, i: nat)
  {
    i < |items| &&
    (LetterIndex(t) == Some(i)
     || (!InRangeLetter(items, t) && HasCode(items[i], CodeKey(t)) &&
         forall j :: i < j < |items| ==> !HasCode(items[j], CodeKey(t)))
     || (!InRangeLetter(items, t) && (forall j :: 0 <= j < |items| ==> !HasCode(items[j], CodeKey(t))) &&
         NameMatches(items[i], t) && forall j :: 0 <= j < i ==> !NameMatches(items[j], t)))
  }

  lemma {:induction false} LastWithCodeIsLast(items: seq<MenuItem>, key: string)
    ensures LastWithCode(items, key).Some? ==>
              forall j :: LastWithCode(items, key).value < j < |items| ==> !HasCode(items[j], key)
    ensures LastWithCode(items, key).None? ==> forall j :: 0 <= j < |items| ==> !HasCode(items[j], key)
  {
    if items != [] && !HasCode(items[|items| - 1], key) {
      LastWithCodeIsLast(items[..|items| - 1], key);
    }
  }

  lemma {:induction false} FirstWithNameIsFirst(items: seq<MenuItem>, token: string)
    ensures FirstWithName(items, token).Some? ==>
              forall j :: 0 <= j < FirstWithName(items, token).value ==> !NameMatches(items[j], token)
    ensures FirstWithName(items, token).None? ==> forall j :: 0 <= j < |items| ==> !NameMatches(items[j], token)
  {
    if items != [] && !NameMatches(items[0], token) {
      FirstWithNameIsFirst(items[1..], token);
    }
  }

  /** `Resolve` picks exactly the item the priority rule names, and finds
      nothing exactly when no item answers the token in any of the three
      ways. */
  lemma ResolveMeetsRule(items: seq<MenuItem>, t: string)
    ensures forall i :: 0 <= i < |items| ==> (Resolve(items, t) == Some(i) <==> ResolvesTo(items, t, i))
    ensures Resolve(items, t).None? <==> forall i :: 0 <= i < |items| ==> !Answers(items, t, i)
  {
    LastWithCodeIsLast(items, CodeKey(t));
    FirstWithNameIsFirst(items, t);
    var r := Resolve(items, t);
    if r.Some? {
      assert Answers(items, t, r.value);
    }
  }

  // ---------------------------------------------------------------- the code map

  /** The code map as a lookup. */
  function CodeLookup(ext: map<string, nat>, key: string): Option<nat>
  {
    if key in ext then Some(ext[key]) else None
  }

  /** `ext` is the handler's `extMap` for these items (values are item
      positions). */
  ghost predicate IsCodeIndex(items: seq<MenuItem>, ext: map<string, nat>)
  {
    forall key :: CodeLookup(ext, key) == LastWithCode(items, key)
  }

  /** `menuItems.forEach(mi => { if (mi.externalId) extMap[key] = mi; })`. */
  method BuildCodeIndex(items: seq<MenuItem>) returns (ext: map<string, nat>)
    ensures IsCodeIndex(items, ext)
  {
    ext := map[];
    for i := 0 to |items|
      invariant IsCodeIndex(items[..i], ext)
    {
      var prefix := items[..i + 1];
      assert prefix[..i] == items[..i];
      assert prefix[i] == items[i];
      if items[i].externalId != "" {
        ext := ext[CodeKey(items[i].externalId) := i];
      }
    }
    assert items[..|items|] == items;
  }

  /** The lookup the handler performs, using the code map. */
  function ResolveWith(items: seq<MenuItem>, ext: map<string, nat>, token: string): (r: Option<nat>)
    requires IsCodeIndex(items, ext)
    ensures r == Resolve(items, token)
  {
    var letter := LetterIndex(token);
    if letter.Some? && letter.value < |items| then letter
    else
      var lookup := CodeKey(token);
      if lookup in ext then (assert CodeLookup(ext, lookup) == LastWithCode(items, lookup); Some(ext[lookup]))
      else (assert CodeLookup(ext, lookup) == LastWithCode(items, lookup); FirstWithName(items, token))
  }

  // ---------------------------------------------------------------- all or nothing

  /** The tokens of `pairs` that resolve to nothing, in input order. */
  function Missing(items: seq<MenuItem>, pairs: seq<Pair>): seq<string>
  {
    if pairs == [] then []
    else
      var last := pairs[|pairs| - 1];
      Missing(items, pairs[..|pairs| - 1]) + (if Resolve(items, last.token).None? then [last.token] else [])
  }

  /** The resolved (item position, quantity) pairs, in input order. */
  function Found(items: seq<MenuItem>, pairs: seq<Pair>): (found: seq<(nat, int)>)
    ensures forall k :: 0 <= k < |found| ==> found[k].0 < |items|
  {
    if pairs == [] then []
    else
      var last := pairs[|pairs| - 1];
      var r := Resolve(items, last.token);
      Found(items, pairs[..|pairs| - 1]) + (if r.Some? && r.value < |items| then [(r.value, last.qty)] else [])
  }

  /** Every pair either lands in `Missing` or in `Found`; when nothing is
      missing, `Found` follows the pairs one for one. */
  lemma {:induction false} FoundWhenNothingMissing(items: seq<MenuItem>, pairs: seq<Pair>)
    ensures |Missing(items, pairs)| + |Found(items, pairs)| == |pairs|
    ensures Missing(items, pairs) == [] ==>
              forall k :: 0 <= k < |pairs| ==>
                Resolve(items, pairs[k].token).Some? &&
                Found(items, pairs)[k] == (Resolve(items, pairs[k].token).value, pairs[k].qty)
  {
    if pairs != [] {
      var init := pairs[..|pairs| - 1];
      FoundWhenNothingMissing(items, init);
      var last := pairs[|pairs| - 1];
      var r := Resolve(items, last.token);
      if r.Some? {
        ResolveInRange(items, last.token);
      }
      if Missing(items, pairs) == [] {
        assert Missing(items, init) == [];
        forall k | 0 <= k < |pairs|
          ensures Resolve(items, pairs[k].token).Some?
          ensures Found(items, pairs)[k] == (Resolve(items, pairs[k].token).value, pairs[k].qty)
        {
          if k < |init| {
            assert pairs[k] == init[k];
          }
        }
      }
    }
  }

  lemma ResolveInRange(items: seq<MenuItem>, t: string)
    ensures Resolve(items, t).Some? ==> Resolve(items, t).value < |items|
  {
  }

  /** A token is listed as missing exactly when it resolves to nothing. */
  lemma {:induction false} MissingExactly(items: seq<MenuItem>, pairs: seq<Pair>, t: string)
    ensures t in Missing(items, pairs) <==>
              exists k :: 0 <= k < |pairs| && pairs[k].token == t && Resolve(items, t).None?
  {
    if pairs != [] {
      var init := pairs[..|pairs| - 1];
      MissingExactly(items, init, t);
      if exists k :: 0 <= k < |init| && init[k].token == t && Resolve(items, t).None? {
        var k :| 0 <= k < |init| && init[k].token == t && Resolve(items, t).None?;
        assert pairs[k] == init[k];
      }
      if exists k :: 0 <= k < |pairs| && pairs[k].token == t && Resolve(items, t).None? {
        var k :| 0 <= k < |pairs| && pairs[k].token == t && Resolve(items, t).None?;
        if k < |init| { assert init[k] == pairs[k]; }
      }
    }
  }

  /** The handler's `for (const p of pairs)` loop filling `resolved` and
      `missingTokens`. */
  method ResolvePairs(items: seq<MenuItem>, ext: map<string, nat>, pairs: seq<Pair>)
    returns (resolved: seq<(nat, int)>, missingTokens: seq<string>)
    requires IsCodeIndex(items, ext)
    ensures resolved == Found(items, pairs)
    ensures missingTokens == Missing(items, pairs)
  {
    resolved, missingTokens := [], [];
    for i := 0 to |pairs|
      invariant resolved == Found(items, pairs[..i])
      invariant missingTokens == Missing(items, pairs[..i])
    {
      var prefix := pairs[..i + 1];
      assert prefix[..i] == pairs[..i];
      assert prefix[i] == pairs[i];
      var mi := ResolveWith(items, ext, pairs[i].token);
      if mi.None? {
        missingTokens := missingTokens + [pairs[i].token];
      } else {
        ResolveInRange(items, pairs[i].token);
        resolved := resolved + [(mi.value, pairs[i].qty)];
      }
    }
    assert pairs[..|pairs|] == pairs;
  }

  // ---------------------------------------------------------------- pricing

  function LineOf(items: seq<MenuItem>, r: (nat, int)): OrderLine
    requires r.0 < |items|
  {
    OrderLine(items[r.0].name, r.1, items[r.0].price)
  }

  function LineTotal(l: OrderLine): int
  {
    l.price * l.qty
  }

  function Sum(lines: seq<OrderLine>): int
  {
    if lines == [] then 0 else Sum(lines[..|lines| - 1]) + LineTotal(lines[|lines| - 1])
  }

  /** The delivery fee the chat path charges. */
  const ChatDeliveryFee := 0

  /** What an `order` command's item tokens come to. */
  function Evaluate(items: seq<MenuItem>, rest: seq<string>): (r: Outcome)
    ensures r.Unresolved? <==> Missing(items, PairsOf(rest)) != []
    ensures r.Unresolved? ==> r.tokens == Missing(items, PairsOf(rest))
    ensures r.Priced? ==> |r.lines| == |PairsOf(rest)| && r.total == Sum(r.lines) + ChatDeliveryFee
  {
    var pairs := PairsOf(rest);
    var missing := Missing(items, pairs);
    if missing != [] then Unresolved(missing)
    else
      var found := Found(items, pairs);
      FoundWhenNothingMissing(items, pairs);
      var lines := seq(|found|, k requires 0 <= k < |found| => LineOf(items, found[k]));
      Priced(lines, Sum(lines) + ChatDeliveryFee)
  }

  /** All or nothing: the outcome lists the unresolved tokens, or it prices
      every pair, one line per pair in input order, each at the resolved
      item's name and price with the pair's quantity, and the total is the
      sum of the line totals. */
  lemma EvaluateSpec(items: seq<MenuItem>, rest: seq<string>)
    ensures Evaluate(items, rest).Unresolved? ==>
              Evaluate(items, rest).tokens == Missing(items, PairsOf(rest)) &&
              Evaluate(items, rest).tokens != []
    ensures Evaluate(items, rest).Priced? ==>
              var pairs := PairsOf(rest);
              var lines := Evaluate(items, rest).lines;
              |lines| == |pairs| &&
              (forall k :: 0 <= k < |pairs| ==>
                 Resolve(items, pairs[k].token).Some? &&
                 var i := Resolve(items, pairs[k].token).value;
                 i < |items| && lines[k] == OrderLine(items[i].name, pairs[k].qty, items[i].price)) &&
              Evaluate(items, rest).total == Sum(lines)
  {
    var pairs := PairsOf(rest);
    FoundWhenNothingMissing(items, pairs);
    if Missing(items, pairs) == [] {
      forall k | 0 <= k < |pairs|
        ensures Resolve(items, pairs[k].token).value < |items|
      {
        ResolveInRange(items, pairs[k].token);
      }
    }
  }

  /** Every quantity is at least 1, so with non-negative prices each line
      total is at most the order total. */
  lemma {:induction false} SumCoversLines(lines: seq<OrderLine>, k: nat)
    requires k < |lines|
    requires forall j :: 0 <= j < |lines| ==> lines[j].price >= 0 && lines[j].qty >= 1
    ensures 0 <= LineTotal(lines[k]) <= Sum(lines)
  {
    SumNonNegative(lines[..|lines| - 1]);
    if k < |lines| - 1 {
      SumCoversLines(lines[..|lines| - 1], k);
    }
  }

  lemma {:induction false} SumNonNegative(lines: seq<OrderLine>)
    requires forall j :: 0 <= j < |lines| ==> lines[j].price >= 0 && lines[j].qty >= 1
    ensures Sum(lines) >= 0
  {
    if lines != [] {
      SumNonNegative(lines[..|lines| - 1]);
    }
  }

  /** The pricing steps of `order`: index the codes, pair the tokens,
      resolve every pair, and either give up with the missing tokens or
      price the found items. */
  method PriceTokens(items: seq<MenuItem>, rest: seq<string>) returns (outcome: Outcome)
    ensures outcome == Evaluate(items, rest)
  {
    var ext := BuildCodeIndex(items);
    var pairs := PairTokens(rest);
    var resolved, missingTokens := ResolvePairs(items, ext, pairs);
    if missingTokens != [] {
      return Unresolved(missingTokens);
    }
    FoundWhenNothingMissing(items, pairs);
    var lines := seq(|resolved|, i requires 0 <= i < |resolved| => LineOf(items, resolved[i]));
    outcome := Priced(lines, Sum(lines) + ChatDeliveryFee);
  }

  // ---------------------------------------------------------------- menu labels

  /** `String.fromCharCode(65 + i)`, the label the menu listing prints for
      the i-th item. */
  function MenuLabelAsWritten(i: nat): (c: char)
    requires 65 + i < 0xD800
    ensures c as int == 65 + i
  {
    (65 + i) as char
  }

  /** Past the 26th item the printed label is no longer a capital letter:
      the 33rd item is labelled `a`, and ordering `a` gives the FIRST item. */
  lemma LabelPastZOrdersAnotherItem(items: seq<MenuItem>)
    requires |items| >= 33
    ensures Resolve(items, [MenuLabelAsWritten(32)]) == Some(0)
  {
    assert MenuLabelAsWritten(32) == 'a';
  }

  /** A label only for the positions a letter can address. */
  function MenuLabel(i: nat): (r: Option<char>)
    ensures r.Some? <==> i < 26
    ensures r.Some? ==> 'A' <= r.value <= 'Z'
  {
    if i < 26 then Some((65 + i) as char) else None
  }

  /** Every label the menu shows orders the item it is printed beside. */
  lemma MenuLabelResolves(items: seq<MenuItem>, i: nat)
    requires i < |items| && MenuLabel(i).Some?
    ensures Resolve(items, [MenuLabel(i).value]) == Some(i)
  {
  }

  // ---------------------------------------------------------------- replies

  datatype MenuLine = MenuLine(letter: Option<char>, name: string, price: int)

  datatype Reply =
    | ShopNotFound(shopPhone: string)
    | NoItems(shopName: string)
    | MenuListing(shopName: string, shopPhone: string, lines: seq<MenuLine>)
    | ItemsNotFound(tokens: seq<string>)
    | OrderPlaced(displayId: string, placed: seq<OrderLine>, total: int)
    | OrderNotFound(orderId: string)
    | InvalidOrderId
    | OrderStatus(displayId: string, status: string)
    | Help
    | ServerError

  /** The listing of a shop's available items. */
  function MenuLines(items: seq<MenuItem>): (ls: seq<MenuLine>)
    ensures |ls| == |items|
    ensures forall i :: 0 <= i < |ls| ==> ls[i].name == items[i].name && ls[i].price == items[i].price
    // the first 26 lines carry a letter, and each letter orders its own line
    ensures forall i :: 0 <= i < |ls| ==> (ls[i].letter.Some? <==> i < 26)
    ensures forall i :: 0 <= i < |ls| && ls[i].letter.Some? ==> Resolve(items, [ls[i].letter.value]) == Some(i)
  {
    var ls := seq(|items|, i requires 0 <= i < |items| => MenuLine(MenuLabel(i), items[i].name, items[i].price));
    assert forall i :: 0 <= i < |ls| && ls[i].letter.Some? ==> Resolve(items, [ls[i].letter.value]) == Some(i) by {
      forall i | 0 <= i < |ls| && ls[i].letter.Some?
        ensures Resolve(items, [ls[i].letter.value]) == Some(i)
      {
        MenuLabelResolves(items, i);
      }
    }
    ls
  }

  const HelpText := "Welcome. Commands:\n1) menu <shopPhone>\n2) order <shopPhone> <letter|itemId> <qty> [more pairs]\n3) status <orderId>"

  function MenuLineText(l: MenuLine): string
  {
    var head := match l.letter case Some(c) => [c] + ". " case None => "- ";
    head + l.name + " \U{2014} \U{20B9}" + IntToString(l.price) + "\n"
  }

  function OrderLineText(l: OrderLine): string
  {
    l.name + " \U{00D7}" + IntToString(l.qty) + " \U{2014} \U{20B9}" + IntToString(l.price)
      + " = \U{20B9}" + IntToString(LineTotal(l))
  }

  function ConcatAll(parts: seq<string>): string
  {
    if parts == [] then [] else parts[0] + ConcatAll(parts[1..])
  }

  /** The text the sender receives. */
  function ReplyText(r: Reply): string
  {
    match r
    case ShopNotFound(p) => "Shop " + p + " not found."
    case NoItems(name) => "No items found for " + name + "."
    case MenuListing(name, phone, lines) =>
      "\U{1F4CB} Menu for " + name + ":\n\n"
      + ConcatAll(seq(|lines|, i requires 0 <= i < |lines| => MenuLineText(lines[i])))
      + "\nTo order: order " + phone + " <letter|itemId> <qty> [<letter|itemId> <qty> ...]"
      + "\nExample: order " + phone + " A 2 B 1"
    case ItemsNotFound(tokens) =>
      "Item(s) not found: " + Join(tokens, ", ") + ". Check the menu and use the letter or item code shown."
    case OrderPlaced(id, lines, total) =>
      "\U{2705} Order placed: " + id + "\n\n"
      + Join(seq(|lines|, i requires 0 <= i < |lines| => OrderLineText(lines[i])), "\n")
      + "\n\nTotal: \U{20B9}" + IntToString(total) + "\nYou will receive updates here."
    case OrderNotFound(id) => "Order " + id + " not found."
    case InvalidOrderId => "Invalid order id."
    case OrderStatus(id, status) => "Order " + id + " status: " + status
    case Help => HelpText
    case ServerError => "Server error."
  }
}
