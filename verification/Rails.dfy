/** Choosing a settlement rail: negotiation, quotes for every rail, and the binding a contract locks. */
module Rails {
  import opened Wrappers

  type RailId = string

  /** A rail's manifest; no currencies or classes means all, no range means any amount. */
  datatype Rail = Rail(id: RailId, currencies: seq<string>, classes: seq<string>, range: Option<(int, Option<int>)>)

  /** Amount-class thresholds of the node. */
  datatype Limits = Limits(microMax: int, macroMin: int)

  datatype Terms = Terms(currency: string, amountClass: Option<string>, preferred: seq<RailId>)

  /** Capability lists of the two parties; an empty list means no restriction. */
  datatype Caps = Caps(client: seq<RailId>, provider: seq<RailId>)

  const MICRO_PRIORITY: seq<RailId> := ["x402", "ap2", "mock", "fiat", "fiat-s1-sandbox"]
  const MACRO_PRIORITY: seq<RailId> := ["fiat-s1-sandbox", "fiat", "ap2", "mock", "x402"]

  function InferClass(l: Limits, amount: int): string {
    if amount <= l.microMax then "micro" else if amount >= l.macroMin then "macro" else "standard"
  }

  /** micro up to one threshold, macro from the other on, micro if they cross. */
  function SizeOf(l: Limits, amount: int): string {
    if amount > l.microMax && amount < l.macroMin then "standard" else if amount > l.microMax then "macro" else "micro"
  }

  /** The class negotiation goes by; inferring it from a negative amount raises. */
  function ClassFor(l: Limits, terms: Terms, amount: Option<int>): Option<string> {
    if terms.amountClass.None? && amount.Some? then
      if amount.value < 0 then None else Some(InferClass(l, amount.value))
    else if terms.amountClass.None? || terms.amountClass.value == "" then Some("standard")
    else terms.amountClass
  }

  predicate InRange(r: Rail, amount: int) {
    r.range.None? || (amount >= r.range.value.0 && (r.range.value.1.None? || amount <= r.range.value.1.value))
  }

  predicate Allows(caps: seq<RailId>, id: RailId) {
    caps == [] || id in caps
  }

  /** Currency, class, amount range and both parties' capabilities. */
  predicate Compatible(r: Rail, currency: string, cls: string, amount: Option<int>, caps: Caps) {
    && (currency == "" || r.currencies == [] || currency in r.currencies)
    && (r.classes == [] || cls in r.classes)
    && (amount.None? || InRange(r, amount.value))
    && Allows(caps.client, r.id) && Allows(caps.provider, r.id)
  }

  /** The position of the last occurrence, as a dictionary built from enumerate has it. */
  function LastIndex(s: seq<RailId>, x: RailId, absent: nat): nat {
    if s == [] then absent
    else if s[|s| - 1] == x then |s| - 1
    else LastIndex(s[..|s| - 1], x, absent)
  }

  function Rank(id: RailId, cls: string, preferred: seq<RailId>): nat {
    if preferred != [] then LastIndex(preferred, id, 999)
    else if cls == "micro" then LastIndex(MICRO_PRIORITY, id, |MICRO_PRIORITY|)
    else if cls == "macro" then LastIndex(MACRO_PRIORITY, id, |MACRO_PRIORITY|)
    else 0
  }

  /******* What compatibility and rank mean *******/

  /** What a rail must declare: nothing that rules the currency, the class, the amount or either party out. */
  predicate Admits(r: Rail, currency: string, cls: string, amount: Option<int>, caps: Caps) {
    && (currency != "" && r.currencies != [] ==> exists i | 0 <= i < |r.currencies| :: r.currencies[i] == currency)
    && (r.classes != [] ==> exists i | 0 <= i < |r.classes| :: r.classes[i] == cls)
    && (amount.Some? && r.range.Some? ==>
          && r.range.value.0 <= amount.value
          && (r.range.value.1.Some? ==> amount.value <= r.range.value.1.value))
    && (caps.client != [] ==> exists i | 0 <= i < |caps.client| :: caps.client[i] == r.id)
    && (caps.provider != [] ==> exists i | 0 <= i < |caps.provider| :: caps.provider[i] == r.id)
  }

  lemma CompatibleIs(r: Rail, currency: string, cls: string, amount: Option<int>, caps: Caps)
    ensures Compatible(r, currency, cls, amount, caps) <==> Admits(r, currency, cls, amount, caps)
  {
  }

  lemma {:induction false} LastIndexIs(s: seq<RailId>, x: RailId, absent: nat)
    ensures var n := LastIndex(s, x, absent);
            if x in s then n < |s| && s[n] == x && forall j | n < j < |s| :: s[j] != x else n == absent
  {
    if s != [] && s[|s| - 1] != x {
      LastIndexIs(s[..|s| - 1], x, absent);
      assert s == s[..|s| - 1] + [s[|s| - 1]];
    }
  }

  /** A wish list decides alone, by last position; without one, micro and macro amounts have fixed orders. */
  lemma RankIs(id: RailId, cls: string, preferred: seq<RailId>)
    ensures preferred != [] ==>
              var n := Rank(id, cls, preferred);
              if id in preferred then n < |preferred| && preferred[n] == id && forall j | n < j < |preferred| :: preferred[j] != id
              else n == 999
    ensures preferred == [] && cls == "micro" ==>
              Rank(id, cls, preferred) == if id == "x402" then 0 else if id == "ap2" then 1 else if id == "mock" then 2
                                          else if id == "fiat" then 3 else if id == "fiat-s1-sandbox" then 4 else 5
    ensures preferred == [] && cls == "macro" ==>
              Rank(id, cls, preferred) == if id == "fiat-s1-sandbox" then 0 else if id == "fiat" then 1 else if id == "ap2" then 2
                                          else if id == "mock" then 3 else if id == "x402" then 4 else 5
    ensures preferred == [] && cls != "micro" && cls != "macro" ==> Rank(id, cls, preferred) == 0
  {
    LastIndexIs(preferred, id, 999);
    PriorityIs(MICRO_PRIORITY, id);
    PriorityIs(MACRO_PRIORITY, id);
  }

  lemma PriorityIs(s: seq<RailId>, id: RailId)
    requires |s| == 5
    ensures LastIndex(s, id, 5) == if id == s[4] then 4 else if id == s[3] then 3 else if id == s[2] then 2
                                   else if id == s[1] then 1 else if id == s[0] then 0 else 5
  {
    LastIndexIs(s, id, 5);
    if id in s {
      var n := LastIndex(s, id, 5);
      assert id == s[0] || id == s[1] || id == s[2] || id == s[3] || id == s[4];
      assert n == 4 || n == 3 || n == 2 || n == 1 || n == 0;
    } else {
      assert s[0] in s && s[1] in s && s[2] in s && s[3] in s && s[4] in s;
    }
  }

  predicate HasRail(rails: seq<Rail>, id: RailId) {
    exists i | 0 <= i < |rails| :: rails[i].id == id
  }

  /** The first of the compatible rails with the least rank. */
  predicate Chosen(rails: seq<Rail>, currency: string, cls: string, amount: Option<int>, caps: Caps,
        preferred: seq<RailId>, i: nat) {
    && i < |rails| && Admits(rails[i], currency, cls, amount, caps)
    && forall j | 0 <= j < |rails| && Admits(rails[j], currency, cls, amount, caps) ::
         Rank(rails[i].id, cls, preferred) <= Rank(rails[j].id, cls, preferred)
         && (j < i ==> Rank(rails[i].id, cls, preferred) < Rank(rails[j].id, cls, preferred))
  }

  /** None when no rail is compatible; the sort is stable, so ties go to the rail listed first. */
  method Best(rails: seq<Rail>, currency: string, cls: string, amount: Option<int>, caps: Caps, preferred: seq<RailId>)
    returns (best: Option<nat>)
    ensures best.Some? ==> Chosen(rails, currency, cls, amount, caps, preferred, best.value)
    ensures best.None? <==> forall i | 0 <= i < |rails| :: !Admits(rails[i], currency, cls, amount, caps)
  {
    hide Admits, Compatible, Rank;
    best := None;
    for i := 0 to |rails|
      invariant best.Some? ==> best.value < i && Chosen(rails[..i], currency, cls, amount, caps, preferred, best.value)
      invariant best.None? ==> forall j | 0 <= j < i :: !Admits(rails[j], currency, cls, amount, caps)
    {
      assert forall j | 0 <= j < i :: rails[..i][j] == rails[j] == rails[..i + 1][j];
      assert rails[..i + 1][i] == rails[i];
      CompatibleIs(rails[i], currency, cls, amount, caps);
      if Compatible(rails[i], currency, cls, amount, caps) {
        if best.None? || Rank(rails[i].id, cls, preferred) < Rank(rails[best.value].id, cls, preferred) {
          best := Some(i);
        }
      }
    }
    assert rails[..|rails|] == rails;
  }

  datatype RailError = NegativeAmount | Mismatch

  method NegotiateRail(l: Limits, terms: Terms, rails: seq<Rail>, amount: Option<int>, caps: Caps)
    returns (r: Result<Option<RailId>, RailError>)
    ensures r.Err? <==> terms.amountClass == None && amount.Some? && amount.value < 0
    ensures r.Err? ==> r.error == NegativeAmount
    ensures r.Ok? ==>
              var cls := if terms.amountClass == None && amount.Some? then SizeOf(l, amount.value)
                         else if terms.amountClass == None || terms.amountClass == Some("") then "standard"
                         else terms.amountClass.value;
              && (r.value.None? <==> forall i | 0 <= i < |rails| :: !Admits(rails[i], terms.currency, cls, amount, caps))
              && (r.value.Some? ==>
                    exists i | 0 <= i < |rails| ::
                      rails[i].id == r.value.value && Chosen(rails, terms.currency, cls, amount, caps, terms.preferred, i))
  {
    var cls := ClassFor(l, terms, amount);
    if cls.None? { return Err(NegativeAmount); }
    var best := Best(rails, terms.currency, cls.value, amount, caps, terms.preferred);
    r := Ok(if best.Some? then Some(rails[best.value].id) else None);
  }

  /******* Quotes *******/

  /** A party that named no rails is quoted each rail as if it had named just that one. */
  function CapsFor(caps: Caps, id: RailId): Caps {
    Caps(if caps.client == [] then [id] else caps.client, if caps.provider == [] then [id] else caps.provider)
  }

  lemma OneWishRank(id: RailId, wish: RailId, cls: string)
    ensures Rank(id, cls, [wish]) == if id == wish then 0 else 999
  {
    assert |[wish]| == 1 && [wish][..0] == [];
    assert LastIndex([wish], id, 999) == if id == wish then 0 else LastIndex([], id, 999);
  }

  /** Naming just the rail at hand rules nothing out that naming none does not. */
  lemma OneNamed(r: Rail, currency: string, cls: string, amount: Option<int>, caps: Caps)
    ensures Admits(r, currency, cls, amount, CapsFor(caps, r.id)) <==> Admits(r, currency, cls, amount, caps)
  {
    assert [r.id][0] == r.id;
  }

  /** Some rail of that id is compatible; ids need not be distinct. */
  predicate Offered(rails: seq<Rail>, id: RailId, currency: string, cls: string, amount: Option<int>, caps: Caps) {
    exists j | 0 <= j < |rails| :: rails[j].id == id && Admits(rails[j], currency, cls, amount, caps)
  }

  /** Asked for one rail by name, negotiation names it exactly when a rail of that name is compatible. */
  lemma WishIsGranted(rails: seq<Rail>, currency: string, cls: string, amount: Option<int>, caps: Caps,
        id: RailId, i: nat)
    requires Chosen(rails, currency, cls, amount, CapsFor(caps, id), [id], i)
    ensures rails[i].id == id <==> Offered(rails, id, currency, cls, amount, caps)
  {
    hide Admits, Rank, CapsFor;
    if rails[i].id == id { OneNamed(rails[i], currency, cls, amount, caps); }
    OneWishRank(rails[i].id, id, cls);
    OneWishRank(id, id, cls);
    if j :| 0 <= j < |rails| && rails[j].id == id && Admits(rails[j], currency, cls, amount, caps) {
      OneNamed(rails[j], currency, cls, amount, caps);
      assert Rank(rails[i].id, cls, [id]) <= Rank(rails[j].id, cls, [id]);
    }
  }

  lemma WishIsDenied(rails: seq<Rail>, currency: string, cls: string, amount: Option<int>, caps: Caps, id: RailId)
    requires forall i | 0 <= i < |rails| :: !Admits(rails[i], currency, cls, amount, CapsFor(caps, id))
    ensures !Offered(rails, id, currency, cls, amount, caps)
  {
    hide Admits, CapsFor;
    forall j | 0 <= j < |rails| && rails[j].id == id
      ensures !Admits(rails[j], currency, cls, amount, caps)
    {
      OneNamed(rails[j], currency, cls, amount, caps);
    }
  }

  datatype Quote = Quote(eligible: seq<bool>, recommended: Option<RailId>)

  /** A rail is quoted eligible exactly if one of its id is compatible; one is recommended exactly if one is eligible. */
  method QuoteSettlement(l: Limits, amount: int, currency: string, rails: seq<Rail>, preferred: seq<RailId>, caps: Caps)
    returns (r: Result<Quote, RailError>)
    ensures r.Err? <==> amount < 0
    ensures r.Ok? ==>
              && |r.value.eligible| == |rails|
              && (forall k | 0 <= k < |rails| ::
                    r.value.eligible[k] <==> Offered(rails, rails[k].id, currency, SizeOf(l, amount), Some(amount), caps))
              && (r.value.recommended.Some? <==> true in r.value.eligible)
              && (r.value.recommended.Some? ==>
                    exists k | 0 <= k < |rails| ::
                      rails[k].id == r.value.recommended.value && r.value.eligible[k]
                      && Chosen(rails, currency, SizeOf(l, amount), Some(amount), caps, preferred, k))
  {
    hide Admits, Rank, CapsFor;
    if amount < 0 { return Err(NegativeAmount); }
    var cls := InferClass(l, amount);
    assert cls != "";
    var eligible: seq<bool> := [];
    for k := 0 to |rails|
      invariant |eligible| == k
      invariant forall j | 0 <= j < k :: eligible[j] <==> Offered(rails, rails[j].id, currency, cls, Some(amount), caps)
    {
      var id := rails[k].id;
      var answer := NegotiateRail(l, Terms(currency, Some(cls), [id]), rails, Some(amount), CapsFor(caps, id));
      if answer.value.Some? {
        var i :| 0 <= i < |rails| && rails[i].id == answer.value.value
                 && Chosen(rails, currency, cls, Some(amount), CapsFor(caps, id), [id], i);
        WishIsGranted(rails, currency, cls, Some(amount), caps, id, i);
      } else {
        WishIsDenied(rails, currency, cls, Some(amount), caps, id);
      }
      eligible := eligible + [answer.value == Some(id)];
    }
    var recommended := NegotiateRail(l, Terms(currency, Some(cls), preferred), rails, Some(amount), caps);
    r := Ok(Quote(eligible, recommended.value));
  }

  /******* The binding *******/

  /** The currency and class a contract negotiates with: its terms', or else its price's. */
  function ContractCurrency(terms: Terms, priceCurrency: string): string {
    if terms.currency == "" then priceCurrency else terms.currency
  }

  function ContractClass(l: Limits, terms: Terms, amount: Option<int>): string {
    if terms.amountClass.Some? && terms.amountClass.value != "" then terms.amountClass.value
    else if amount.Some? then SizeOf(l, amount.value)
    else "standard"
  }

  /** No class is given, and none can be inferred from a negative amount. */
  predicate Unclassed(terms: Terms, amount: Option<int>) {
    (terms.amountClass == None || terms.amountClass == Some("")) && amount.Some? && amount.value < 0
  }

  predicate NoneAdmits(rails: seq<Rail>, currency: string, cls: string, amount: Option<int>, caps: Caps) {
    forall i | 0 <= i < |rails| :: !Admits(rails[i], currency, cls, amount, caps)
  }

  /**
   The rail a contract locks is the one negotiation chooses; only if no rail is compatible does it
   fall back to the mock rail, if the terms allow that and the node has one.
   */
  method FinalizeBinding(l: Limits, terms: Terms, fallbackMock: bool, priceCurrency: string,
        amount: Option<int>, rails: seq<Rail>, caps: Caps)
    returns (r: Result<RailId, RailError>)
    ensures r == Err(NegativeAmount) <==> Unclassed(terms, amount)
    ensures r.Ok? ==> HasRail(rails, r.value)
    ensures var currency, cls := ContractCurrency(terms, priceCurrency), ContractClass(l, terms, amount);
            var none := NoneAdmits(rails, currency, cls, amount, caps);
            && (r.Ok? <==> !Unclassed(terms, amount) && (!none || (fallbackMock && HasRail(rails, "mock"))))
            && (r.Ok? && !none ==> exists i | 0 <= i < |rails| ::
                  rails[i].id == r.value && Chosen(rails, currency, cls, amount, caps, terms.preferred, i))
            && (r.Ok? && none ==> fallbackMock && r.value == "mock")
            && (r == Err(Mismatch) <==> !Unclassed(terms, amount) && none && !(fallbackMock && HasRail(rails, "mock")))
  {
    hide Admits, Rank;
    var full := terms;
    if priceCurrency != "" && full.currency == "" {
      full := full.(currency := priceCurrency);
    }
    if (full.amountClass.None? || full.amountClass.value == "") && amount.Some? {
      if amount.value < 0 { return Err(NegativeAmount); }
      full := full.(amountClass := Some(InferClass(l, amount.value)));
    }
    if full.amountClass.None? {
      full := full.(amountClass := Some("standard"));
    }
    var answer := NegotiateRail(l, full, rails, amount, caps);
    if answer.Err? { return Err(NegativeAmount); }
    if answer.value.Some? {
      return Ok(answer.value.value);
    }
    if fallbackMock && exists i | 0 <= i < |rails| :: rails[i].id == "mock" {
      return Ok("mock");
    }
    r := Err(Mismatch);
  }

  class RailRegistry {
    const entries: seq<Rail>

    constructor (entries: seq<Rail>)
      ensures this.entries == entries
    {
      this.entries := entries;
    }

    /** The entry a rail id resolves to; an unregistered id raises KeyError. */
    method AdapterFor(id: RailId) returns (entry: Option<Rail>)
      ensures entry.Some? <==> HasRail(entries, id)
      ensures entry.Some? ==> entry.value in entries && entry.value.id == id
    {
      for i := 0 to |entries|
        invariant forall j | 0 <= j < i :: entries[j].id != id
      {
        if entries[i].id == id { return Some(entries[i]); }
      }
      entry := None;
    }

    /** Whatever binding a contract locks over the registry's manifest, its adapter is found. */
    method Bind(l: Limits, terms: Terms, fallbackMock: bool, priceCurrency: string, amount: Option<int>, caps: Caps)
      returns (r: Result<Rail, RailError>)
      ensures r.Ok? ==> r.value in entries
      ensures r == Err(NegativeAmount) <==> Unclassed(terms, amount)
      ensures var currency, cls := ContractCurrency(terms, priceCurrency), ContractClass(l, terms, amount);
              var none := NoneAdmits(entries, currency, cls, amount, caps);
              && (r.Ok? <==> !Unclassed(terms, amount) && (!none || (fallbackMock && HasRail(entries, "mock"))))
              && (r.Ok? && !none ==> exists i | 0 <= i < |entries| ::
                    entries[i].id == r.value.id && Chosen(entries, currency, cls, amount, caps, terms.preferred, i))
              && (r.Ok? && none ==> r.value.id == "mock")
    {
      var bound := FinalizeBinding(l, terms, fallbackMock, priceCurrency, amount, entries, caps);
      if bound.Err? { return Err(bound.error); }
      var entry := AdapterFor(bound.value);
      r := Ok(entry.value);
    }
  }
}
