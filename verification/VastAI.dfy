/** The VastAI client: choosing an offer, labelling, listing and pruning machines. */
module VastAI {
  import opened Wrappers
  import opened Text

  // ---- offers ----

  datatype BundleOffer = BundleOffer(id: int, machineId: int, dphTotal: real)

  /** Identifiers are the numbers that the client prints with strconv.Itoa. */
  datatype Offer = Offer(offerId: int, machineId: int)

  predicate SortedByPrice(offers: seq<BundleOffer>) {
    forall i, j :: 0 <= i < j < |offers| ==> offers[i].dphTotal <= offers[j].dphTotal
  }

  /** What sort.Slice may return: any ascending permutation, ties in any order. */
  predicate IsSortOf(sorted: seq<BundleOffer>, offers: seq<BundleOffer>) {
    SortedByPrice(sorted) && multiset(sorted) == multiset(offers)
  }

  predicate WithinPrice(o: BundleOffer, priceMax: Option<real>) {
    priceMax.None? || o.dphTotal <= priceMax.value
  }

  /** No ban is recorded, or the recorded one has run out; a duration of zero never runs out. */
  predicate Unbanned(bans: map<int, int>, duration: int, now: int, stableId: int) {
    stableId !in bans || (duration > 0 && now - bans[stableId] > duration)
  }

  function OfferOf(o: BundleOffer): Offer {
    Offer(o.id, o.machineId)
  }

  function Affordable(sorted: seq<BundleOffer>, priceMax: Option<real>): seq<Offer> {
    if sorted == [] then []
    else
      var last := sorted[|sorted| - 1];
      Affordable(sorted[..|sorted| - 1], priceMax) + if WithinPrice(last, priceMax) then [OfferOf(last)] else []
  }

  function Candidates(offers: seq<Offer>, bans: map<int, int>, duration: int, now: int): seq<int> {
    if offers == [] then []
    else
      var last := offers[|offers| - 1];
      Candidates(offers[..|offers| - 1], bans, duration, now)
      + if Unbanned(bans, duration, now, last.machineId) then [last.offerId] else []
  }

  // ---- the attempt loop ----

  datatype Answer = BadRequest | Unauthorized | CallFailed | NotGranted | Granted(contract: int)

  /** One turn of the attempt loop: whether the context has ended before it, and the answer to the request. */
  datatype Try = Try(cancelled: bool, answer: Answer)

  datatype Failure = NoCandidates | ContextEnded | NotAuthorized | AllRefused

  predicate Refuses(a: Answer) {
    a == BadRequest || a == CallFailed || a == NotGranted
  }

  /** The outcome, and the number of requests made. */
  function Provision(candidates: seq<int>, tries: nat -> Try): (Result<int, Failure>, nat) {
    if candidates == [] then (Err(NoCandidates), 0) else ProvisionFrom(candidates, tries, 0)
  }

  function ProvisionFrom(candidates: seq<int>, tries: nat -> Try, i: nat): (Result<int, Failure>, nat)
    requires i <= |candidates|
    decreases |candidates| - i
  {
    if i == |candidates| then (Err(AllRefused), i)
    else if tries(i).cancelled then (Err(ContextEnded), i)
    else match tries(i).answer
      case Unauthorized => (Err(NotAuthorized), i + 1)
      case Granted(contract) => (Ok(contract), i + 1)
      case _ => ProvisionFrom(candidates, tries, i + 1)
  }

  lemma {:induction false} ProvisionFromStops(candidates: seq<int>, tries: nat -> Try, i: nat)
    requires i <= |candidates|
    ensures var (r, n) := ProvisionFrom(candidates, tries, i);
      && i <= n <= |candidates|
      && (r.Ok? ==> n > i && tries(n - 1) == Try(false, Granted(r.value)))
      && (r == Err(AllRefused) ==> n == |candidates|)
      && (r == Err(NotAuthorized) ==> n > i && tries(n - 1) == Try(false, Unauthorized))
      && (r == Err(ContextEnded) ==> n < |candidates| && tries(n).cancelled)
      && r != Err(NoCandidates)
      && forall k :: i <= k < (if r.Ok? || r == Err(NotAuthorized) then n - 1 else n) ==>
           !tries(k).cancelled && Refuses(tries(k).answer)
    decreases |candidates| - i
  {
    if i == |candidates| || tries(i).cancelled || !Refuses(tries(i).answer) {
    } else {
      ProvisionFromStops(candidates, tries, i + 1);
    }
  }

  // ---- selection as a whole ----

  /** An offer that may be rented: within the price limit and not banned. */
  predicate Eligible(o: BundleOffer, priceMax: Option<real>, bans: map<int, int>, duration: int, now: int) {
    WithinPrice(o, priceMax) && Unbanned(bans, duration, now, o.machineId)
  }

  function EligibleOffers(sorted: seq<BundleOffer>, priceMax: Option<real>, bans: map<int, int>,
                          duration: int, now: int): (es: seq<BundleOffer>) {
    if sorted == [] then []
    else
      var last := sorted[|sorted| - 1];
      EligibleOffers(sorted[..|sorted| - 1], priceMax, bans, duration, now)
      + if Eligible(last, priceMax, bans, duration, now) then [last] else []
  }

  function OfferIds(es: seq<BundleOffer>): (ids: seq<int>)
    ensures |ids| == |es|
  {
    seq(|es|, i requires 0 <= i < |es| => es[i].id)
  }

  /** The two filters, one on prices and one on bans, keep exactly the eligible offers, in order. */
  lemma {:induction false} CandidatesAreEligible(sorted: seq<BundleOffer>, priceMax: Option<real>,
                                                 bans: map<int, int>, duration: int, now: int)
    ensures Candidates(Affordable(sorted, priceMax), bans, duration, now)
         == OfferIds(EligibleOffers(sorted, priceMax, bans, duration, now))
  {
    if sorted == [] {
    } else {
      var init, last := sorted[..|sorted| - 1], sorted[|sorted| - 1];
      assert sorted == init + [last];
      CandidatesAreEligible(init, priceMax, bans, duration, now);
      CandidatesStep(init, last, priceMax, bans, duration, now);
    }
  }

  lemma {:induction false} EligibleMembers(sorted: seq<BundleOffer>, priceMax: Option<real>,
                                           bans: map<int, int>, duration: int, now: int)
    ensures forall o :: o in EligibleOffers(sorted, priceMax, bans, duration, now) <==>
      o in sorted && Eligible(o, priceMax, bans, duration, now)
  {
    if sorted == [] {
    } else {
      EligibleMembers(sorted[..|sorted| - 1], priceMax, bans, duration, now);
      assert sorted == sorted[..|sorted| - 1] + [sorted[|sorted| - 1]];
    }
  }

  lemma {:induction false} EligibleSorted(sorted: seq<BundleOffer>, priceMax: Option<real>,
                                          bans: map<int, int>, duration: int, now: int)
    requires SortedByPrice(sorted)
    ensures SortedByPrice(EligibleOffers(sorted, priceMax, bans, duration, now))
  {
    if sorted == [] {
    } else {
      var init, last := sorted[..|sorted| - 1], sorted[|sorted| - 1];
      EligibleSorted(init, priceMax, bans, duration, now);
      EligibleMembers(init, priceMax, bans, duration, now);
      var es := EligibleOffers(init, priceMax, bans, duration, now);
      forall o | o in es ensures o.dphTotal <= last.dphTotal {
        var i :| 0 <= i < |init| && init[i] == o;
      }
    }
  }

  lemma CandidatesStep(init: seq<BundleOffer>, last: BundleOffer, priceMax: Option<real>,
                       bans: map<int, int>, duration: int, now: int)
    ensures var es := EligibleOffers(init, priceMax, bans, duration, now);
      var es' := EligibleOffers(init + [last], priceMax, bans, duration, now);
      var ids := Candidates(Affordable(init, priceMax), bans, duration, now);
      ids == OfferIds(es) ==> Candidates(Affordable(init + [last], priceMax), bans, duration, now) == OfferIds(es')
  {
    assert (init + [last])[..|init|] == init;
    var offers := Affordable(init, priceMax);
    assert (offers + [OfferOf(last)])[..|offers|] == offers;
    var es := EligibleOffers(init, priceMax, bans, duration, now);
    assert OfferIds(es + [last]) == OfferIds(es) + [last.id];
    assert offers + [] == offers && es + [] == es;
    assert EligibleOffers(init + [last], priceMax, bans, duration, now)
        == if Eligible(last, priceMax, bans, duration, now) then es + [last] else es;
    assert Affordable(init + [last], priceMax)
        == if WithinPrice(last, priceMax) then offers + [OfferOf(last)] else offers;
  }

  predicate RefusedBefore(es: seq<BundleOffer>, tries: nat -> Try, o: BundleOffer, k: nat) {
    exists i: nat :: i < k && i < |es| && es[i] == o && !tries(i).cancelled && Refuses(tries(i).answer)
  }

  /** The rented offer, by its position among the eligible ones. */
  function Chosen(es: seq<BundleOffer>, tries: nat -> Try): (o: Option<BundleOffer>) {
    var (r, n) := Provision(OfferIds(es), tries);
    if r.Ok? && 0 < n <= |es| then Some(es[n - 1]) else None
  }

  /** No dearer than the limit, if there is one, and not banned; a ban with a duration runs out. */
  predicate MayBeRented(o: BundleOffer, priceMax: Option<real>, bans: map<int, int>, duration: int, now: int) {
    && (priceMax.Some? ==> o.dphTotal <= priceMax.value)
    && (o.machineId in bans ==> duration > 0 && now - bans[o.machineId] > duration)
  }

  /** A machine is rented only from an offer that may be rented, by its id and with the last request made; every
      strictly cheaper such offer was asked for before and refused. If nothing is rented, the context ended, the key was
      refused, or every such offer was asked for and refused. */
  lemma CheapestGrantedIsRented(offers: seq<BundleOffer>, sorted: seq<BundleOffer>, priceMax: Option<real>,
                                bans: map<int, int>, duration: int, now: int, tries: nat -> Try)
    requires IsSortOf(sorted, offers)
    ensures var es := EligibleOffers(sorted, priceMax, bans, duration, now);
      var candidates := Candidates(Affordable(sorted, priceMax), bans, duration, now);
      var (r, n) := Provision(candidates, tries);
      && |candidates| == |es| && (forall i :: 0 <= i < |es| ==> candidates[i] == es[i].id)
      && (r.Ok? <==> Chosen(es, tries).Some?)
      && (r.Ok? ==>
           var o := Chosen(es, tries).value;
           && o in offers && MayBeRented(o, priceMax, bans, duration, now)
           && 0 < n <= |es| && o == es[n - 1] && tries(n - 1) == Try(false, Granted(r.value))
           && forall c :: c in offers && MayBeRented(c, priceMax, bans, duration, now) && c.dphTotal < o.dphTotal ==>
                RefusedBefore(es, tries, c, n - 1))
      && (r == Err(AllRefused) ==>
           forall c :: c in offers && MayBeRented(c, priceMax, bans, duration, now) ==> RefusedBefore(es, tries, c, n))
      && (r == Err(NoCandidates) <==> forall c :: c in offers ==> !MayBeRented(c, priceMax, bans, duration, now))
  {
    var es := EligibleOffers(sorted, priceMax, bans, duration, now);
    CandidatesAreEligible(sorted, priceMax, bans, duration, now);
    EligibleSorted(sorted, priceMax, bans, duration, now);
    EligibleOfOffers(offers, sorted, priceMax, bans, duration, now);
    if es == [] {
      assert OfferIds(es) == [];
    } else {
      assert es[0] in es;
      ProvisionInOrder(es, tries);
    }
  }

  lemma EligibleOfOffers(offers: seq<BundleOffer>, sorted: seq<BundleOffer>, priceMax: Option<real>,
                         bans: map<int, int>, duration: int, now: int)
    requires multiset(sorted) == multiset(offers)
    ensures forall c :: c in EligibleOffers(sorted, priceMax, bans, duration, now)
                        <==> c in offers && MayBeRented(c, priceMax, bans, duration, now)
  {
    EligibleMembers(sorted, priceMax, bans, duration, now);
    SameOffers(sorted, offers);
    assert forall c :: MayBeRented(c, priceMax, bans, duration, now) <==> Eligible(c, priceMax, bans, duration, now);
  }

  lemma SameOffers(sorted: seq<BundleOffer>, offers: seq<BundleOffer>)
    requires multiset(sorted) == multiset(offers)
    ensures forall o :: o in offers <==> o in sorted
  {
    forall o ensures o in offers <==> o in sorted {
      assert o in offers <==> o in multiset(offers);
      assert o in sorted <==> o in multiset(sorted);
    }
  }

  lemma ProvisionInOrder(es: seq<BundleOffer>, tries: nat -> Try)
    requires SortedByPrice(es) && es != []
    ensures var (r, n) := Provision(OfferIds(es), tries);
      && (r.Ok? <==> Chosen(es, tries).Some?)
      && (r.Ok? ==>
           var o := Chosen(es, tries).value;
           && 0 < n <= |es| && o == es[n - 1] && tries(n - 1) == Try(false, Granted(r.value))
           && forall c :: c in es && c.dphTotal < o.dphTotal ==> RefusedBefore(es, tries, c, n - 1))
      && (r == Err(AllRefused) ==> forall c :: c in es ==> RefusedBefore(es, tries, c, n))
      && r != Err(NoCandidates)
  {
    assert OfferIds(es) != [];
    ProvisionFromStops(OfferIds(es), tries, 0);
    var (r, n) := Provision(OfferIds(es), tries);
    if r.Ok? {
      CheaperWereRefused(es, tries, n - 1);
    } else if r == Err(AllRefused) {
      forall c | c in es ensures RefusedBefore(es, tries, c, n) {
        var i :| 0 <= i < |es| && es[i] == c;
      }
    }
  }

  lemma CheaperWereRefused(es: seq<BundleOffer>, tries: nat -> Try, k: nat)
    requires SortedByPrice(es) && k < |es|
    requires forall i :: 0 <= i < k ==> !tries(i).cancelled && Refuses(tries(i).answer)
    ensures forall c :: c in es && c.dphTotal < es[k].dphTotal ==> RefusedBefore(es, tries, c, k)
  {
    forall c | c in es && c.dphTotal < es[k].dphTotal ensures RefusedBefore(es, tries, c, k) {
      var i :| 0 <= i < |es| && es[i] == c;
      assert i < k;
    }
  }

  // ---- labels ----

  datatype LabelInfo = LabelInfo(prefix: string, clusterUID: string, nodeName: string, podUID: string)

  function BuildMachineLabel(clusterUID: string, nodeName: string, podUID: string): string {
    "vk" + ":" + clusterUID + ":" + nodeName + ":" + podUID
  }

  function ParseMachineLabel(tag: string): Option<LabelInfo> {
    var parts := Split(tag, ':');
    if |parts| != 4 || parts[0] != "vk" then None
    else Some(LabelInfo(parts[0], parts[1], parts[2], parts[3]))
  }

  /** Parsing gives back what a label was built from exactly when no part has a colon. */
  lemma LabelRoundTrip(clusterUID: string, nodeName: string, podUID: string)
    ensures ParseMachineLabel(BuildMachineLabel(clusterUID, nodeName, podUID))
         == (if ':' !in clusterUID && ':' !in nodeName && ':' !in podUID
             then Some(LabelInfo("vk", clusterUID, nodeName, podUID)) else None)
  {
    if ':' !in clusterUID && ':' !in nodeName && ':' !in podUID {
      CleanLabelSplits(clusterUID, nodeName, podUID);
    } else {
      LabelColons(clusterUID, nodeName, podUID);
      CountZero(clusterUID, ':');
      CountZero(nodeName, ':');
      CountZero(podUID, ':');
      SplitLength(BuildMachineLabel(clusterUID, nodeName, podUID), ':');
    }
  }

  lemma CleanLabelSplits(clusterUID: string, nodeName: string, podUID: string)
    requires ':' !in clusterUID && ':' !in nodeName && ':' !in podUID
    ensures Split(BuildMachineLabel(clusterUID, nodeName, podUID), ':') == ["vk", clusterUID, nodeName, podUID]
  {
    var last := nodeName + [':'] + podUID;
    var rest := clusterUID + [':'] + last;
    assert BuildMachineLabel(clusterUID, nodeName, podUID) == "vk" + [':'] + rest;
    SplitPeels("vk", ':', rest);
    SplitPeels(clusterUID, ':', last);
    SplitPeels(nodeName, ':', podUID);
    SplitWithout(podUID, ':');
  }

  lemma LabelColons(clusterUID: string, nodeName: string, podUID: string)
    ensures Count(BuildMachineLabel(clusterUID, nodeName, podUID), ':')
         == 3 + Count(clusterUID, ':') + Count(nodeName, ':') + Count(podUID, ':')
  {
    var colon := ":";
    assert Count(colon, ':') == 1 && Count("vk", ':') == 0 by {
      assert colon[1..] == "" && "vk"[1..] == "k" && "k"[1..] == "";
    }
    CountAppend("vk", colon, ':');
    CountAppend("vk" + colon, clusterUID, ':');
    CountAppend("vk" + colon + clusterUID, colon, ':');
    CountAppend("vk" + colon + clusterUID + colon, nodeName, ':');
    CountAppend("vk" + colon + clusterUID + colon + nodeName, colon, ':');
    CountAppend("vk" + colon + clusterUID + colon + nodeName + colon, podUID, ':');
  }

  /** Only built labels parse. */
  lemma ParsedLabelsAreBuilt(tag: string)
    requires ParseMachineLabel(tag).Some?
    ensures var info := ParseMachineLabel(tag).value;
      info.prefix == "vk" && tag == BuildMachineLabel(info.clusterUID, info.nodeName, info.podUID)
  {
    var parts := Split(tag, ':');
    JoinSplit(tag, ':');
    var tail := [parts[2], parts[3]];
    JoinCons(parts[2], [parts[3]], ":");
    JoinCons(parts[1], tail, ":");
    JoinCons(parts[0], [parts[1]] + tail, ":");
    assert [parts[2]] + [parts[3]] == tail;
    assert parts == [parts[0]] + ([parts[1]] + tail);
    assert Join([parts[3]], ":") == parts[3];
    LabelShape(parts[1], parts[2], parts[3]);
  }

  lemma LabelShape(a: string, b: string, c: string)
    ensures "vk" + ":" + (a + ":" + (b + ":" + c)) == BuildMachineLabel(a, b, c)
  {
  }

  lemma {:induction false} JoinSplit(s: string, sep: char)
    ensures Join(Split(s, sep), [sep]) == s
  {
    if s != "" {
      JoinSplit(s[1..], sep);
      var rest := Split(s[1..], sep);
      if s[0] == sep {
        JoinCons("", rest, [sep]);
        assert "" + [sep] + s[1..] == s;
      } else {
        JoinFirst(s[0], rest, [sep]);
        assert [s[0]] + s[1..] == s;
      }
    }
  }

  lemma JoinFirst(c: char, parts: seq<string>, sep: string)
    requires parts != []
    ensures Join([[c] + parts[0]] + parts[1..], sep) == [c] + Join(parts, sep)
  {
    if |parts| == 1 {
      assert [[c] + parts[0]] + parts[1..] == [[c] + parts[0]];
    } else {
      JoinCons([c] + parts[0], parts[1..], sep);
      assert [c] + parts[0] + sep + Join(parts[1..], sep) == [c] + (parts[0] + sep + Join(parts[1..], sep));
    }
  }

  // ---- listing and pruning ----

  datatype Machine = Machine(id: int, tag: string)

  datatype Page = Page(instances: seq<Machine>, nextToken: string)

  /** The listing endpoint by token: a page, or an error. */
  type Listing = string -> Option<Page>

  predicate Last(page: Page, token: string) {
    page.nextToken == "" || page.nextToken == token
  }

  /** The tokens the loop follows, to a page that ends it or a call that fails. */
  ghost predicate TokenChain(listing: Listing, chain: seq<string>) {
    && chain != [] && chain[0] == ""
    && (forall i :: 0 <= i < |chain| - 1 ==>
          listing(chain[i]).Some? && !Last(listing(chain[i]).value, chain[i])
            && listing(chain[i]).value.nextToken == chain[i + 1])
    && (var end := chain[|chain| - 1]; listing(end).Some? ==> Last(listing(end).value, end))
  }

  /** Tokens from which the listing leads on forever: every page comes, none is the last, and the next token is another
      of them. */
  ghost predicate Endless(listing: Listing, tokens: iset<string>) {
    forall t :: t in tokens ==>
      listing(t).Some? && !Last(listing(t).value, t) && listing(t).value.nextToken in tokens
  }

  /** The loop notices a token that repeats at once, not a longer cycle: a listing that comes back to where it was has
      no finite chain. */
  lemma CyclicListingNeverEnds(listing: Listing, tokens: iset<string>, chain: seq<string>)
    requires "" in tokens && Endless(listing, tokens)
    ensures !TokenChain(listing, chain)
  {
    if TokenChain(listing, chain) {
      for i := 0 to |chain| - 1
        invariant chain[i] in tokens
      {
      }
      assert false;
    }
  }

  /** The tokens that the loop gets to, in order, whether or not it stops there. */
  ghost predicate Followed(listing: Listing, chain: seq<string>) {
    && chain != [] && chain[0] == ""
    && forall i :: 0 <= i < |chain| - 1 ==>
         listing(chain[i]).Some? && !Last(listing(chain[i]).value, chain[i])
           && listing(chain[i]).value.nextToken == chain[i + 1]
  }

  ghost predicate GetsTo(listing: Listing, token: string) {
    exists chain :: Followed(listing, chain) && chain[|chain| - 1] == token
  }

  /** The loop ends exactly when there are no such tokens from the start. */
  lemma ListingEndsExactly(listing: Listing)
    ensures (exists chain :: TokenChain(listing, chain))
        <==> !exists tokens: iset<string> :: "" in tokens && Endless(listing, tokens)
  {
    if tokens: iset<string> :| "" in tokens && Endless(listing, tokens) {
      forall chain ensures !TokenChain(listing, chain) { CyclicListingNeverEnds(listing, tokens, chain); }
    }
    if !exists chain :: TokenChain(listing, chain) {
      var tokens := iset t | GetsTo(listing, t);
      assert Followed(listing, [""]) && [""][0] == "";
      assert GetsTo(listing, "");
      forall t | t in tokens
        ensures listing(t).Some? && !Last(listing(t).value, t) && listing(t).value.nextToken in tokens
      {
        LeadsOn(listing, t);
      }
      assert Endless(listing, tokens);
    }
  }

  lemma LeadsOn(listing: Listing, t: string)
    requires GetsTo(listing, t) && !exists chain :: TokenChain(listing, chain)
    ensures listing(t).Some? && !Last(listing(t).value, t) && GetsTo(listing, listing(t).value.nextToken)
  {
    var chain :| Followed(listing, chain) && chain[|chain| - 1] == t;
    assert !TokenChain(listing, chain);
    var on := chain + [listing(t).value.nextToken];
    assert Followed(listing, on) && on[|on| - 1] == listing(t).value.nextToken;
  }

  function Concatenated(listing: Listing, chain: seq<string>): seq<Machine> {
    if chain == [] then []
    else Concatenated(listing, chain[..|chain| - 1])
         + (var page := listing(chain[|chain| - 1]); if page.Some? then page.value.instances else [])
  }

  /** The machines of every page of the chain are there. */
  lemma {:induction false} ConcatenatedExactly(listing: Listing, chain: seq<string>, m: Machine)
    ensures m in Concatenated(listing, chain)
        <==> exists t :: t in chain && listing(t).Some? && m in listing(t).value.instances
    decreases |chain|
  {
    if chain == [] {
    } else {
      var init, last := chain[..|chain| - 1], chain[|chain| - 1];
      ConcatenatedExactly(listing, init, m);
      assert forall t :: t in chain <==> t in init || t == last;
    }
  }

  lemma {:induction false} FilteredExactly(machines: seq<Machine>, clusterUID: string, nodeName: string, m: Machine)
    ensures m in Filtered(machines, clusterUID, nodeName) <==> m in machines && LabelledFor(m, clusterUID, nodeName)
  {
    if machines == [] {
    } else {
      var init, last := machines[..|machines| - 1], machines[|machines| - 1];
      FilteredExactly(init, clusterUID, nodeName, m);
      assert m in machines <==> m in init || m == last;
    }
  }

  /** Listed is what is on some page of the chain and whose tag parses to this cluster and this node. */
  lemma ListedExactly(listing: Listing, chain: seq<string>, clusterUID: string, nodeName: string, m: Machine)
    requires TokenChain(listing, chain) && listing(chain[|chain| - 1]).Some?
    ensures m in Filtered(Concatenated(listing, chain), clusterUID, nodeName)
        <==> && (exists i :: 0 <= i < |chain| && m in listing(chain[i]).value.instances)
             && ParseMachineLabel(m.tag).Some?
             && ParseMachineLabel(m.tag).value.clusterUID == clusterUID
             && ParseMachineLabel(m.tag).value.nodeName == nodeName
  {
    FilteredExactly(Concatenated(listing, chain), clusterUID, nodeName, m);
    ConcatenatedExactly(listing, chain, m);
    if t :| t in chain && listing(t).Some? && m in listing(t).value.instances {
      var i :| 0 <= i < |chain| && chain[i] == t;
      assert m in listing(chain[i]).value.instances;
    }
  }

  /** A page that names the token it was asked with ends the listing, as does one that names none. */
  lemma RepeatedTokenEnds(listing: Listing, t: string)
    requires listing("").Some? && listing(t).Some? && t != "" && listing("").value.nextToken == t
    requires listing(t).value.nextToken == "" || listing(t).value.nextToken == t
    ensures TokenChain(listing, ["", t])
  {
  }

  predicate LabelledFor(m: Machine, clusterUID: string, nodeName: string) {
    var tag := ParseMachineLabel(m.tag);
    tag.Some? && tag.value.clusterUID == clusterUID && tag.value.nodeName == nodeName
  }

  function Filtered(machines: seq<Machine>, clusterUID: string, nodeName: string): seq<Machine> {
    if machines == [] then []
    else
      var last := machines[|machines| - 1];
      Filtered(machines[..|machines| - 1], clusterUID, nodeName)
      + if LabelledFor(last, clusterUID, nodeName) then [last] else []
  }

  predicate Stray(m: Machine, clusterUID: string, podUIDs: seq<string>) {
    var tag := ParseMachineLabel(m.tag);
    tag.Some? && tag.value.clusterUID == clusterUID && tag.value.podUID !in podUIDs
  }

  /** The machines to destroy, in listing order. */
  function Dangling(machines: seq<Machine>, clusterUID: string, podUIDs: seq<string>): seq<int> {
    if machines == [] then []
    else
      var last := machines[|machines| - 1];
      Dangling(machines[..|machines| - 1], clusterUID, podUIDs)
      + if Stray(last, clusterUID, podUIDs) then [last.id] else []
  }

  predicate IsDangling(m: Machine, clusterUID: string, nodeName: string, podUIDs: seq<string>) {
    LabelledFor(m, clusterUID, nodeName) && ParseMachineLabel(m.tag).value.podUID !in podUIDs
  }

  lemma {:induction false} DanglingExactly(machines: seq<Machine>, clusterUID: string, nodeName: string,
                                           podUIDs: seq<string>, id: int)
    ensures id in Dangling(Filtered(machines, clusterUID, nodeName), clusterUID, podUIDs) <==>
      exists m :: m in machines && m.id == id && IsDangling(m, clusterUID, nodeName, podUIDs)
  {
    if machines == [] {
    } else {
      var init, last := machines[..|machines| - 1], machines[|machines| - 1];
      DanglingExactly(init, clusterUID, nodeName, podUIDs, id);
      assert forall m :: m in machines <==> m in init || m == last;
      DanglingStep(init, last, clusterUID, nodeName, podUIDs);
      assert machines == init + [last];
    }
  }

  lemma DanglingStep(init: seq<Machine>, last: Machine, clusterUID: string, nodeName: string, podUIDs: seq<string>)
    ensures Dangling(Filtered(init + [last], clusterUID, nodeName), clusterUID, podUIDs)
         == Dangling(Filtered(init, clusterUID, nodeName), clusterUID, podUIDs)
            + if IsDangling(last, clusterUID, nodeName, podUIDs) then [last.id] else []
  {
    var kept := Filtered(init, clusterUID, nodeName);
    assert (init + [last])[..|init|] == init;
    assert (kept + [last])[..|kept|] == kept;
    assert kept + [] == kept;
    assert Filtered(init + [last], clusterUID, nodeName)
        == if LabelledFor(last, clusterUID, nodeName) then kept + [last] else kept;
  }

  /** With machine ids that are not shared, a machine rented for a pod is asked to be destroyed exactly when it is
      this cluster's and this node's and the pod is not listed. */
  lemma PruningIsExact(machines: seq<Machine>, clusterUID: string, nodeName: string, podUIDs: seq<string>,
                       m: Machine, c: string, n: string, u: string)
    requires m in machines && m.tag == BuildMachineLabel(c, n, u) && ':' !in c && ':' !in n && ':' !in u
    requires forall x, y :: x in machines && y in machines && x.id == y.id ==> x == y
    ensures m.id in Dangling(Filtered(machines, clusterUID, nodeName), clusterUID, podUIDs) <==>
      c == clusterUID && n == nodeName && u !in podUIDs
  {
    LabelRoundTrip(c, n, u);
    DanglingExactly(machines, clusterUID, nodeName, podUIDs, m.id);
    if x :| x in machines && x.id == m.id && IsDangling(x, clusterUID, nodeName, podUIDs) {
      assert x == m;
    }
  }

  // ---- the client ----

  class Client {
    const clusterUID: string
    const nodeName: string
    const banDuration: int
    var machineBans: map<int, int>

    constructor (clusterUID: string, nodeName: string, banDuration: int)
      ensures this.clusterUID == clusterUID && this.nodeName == nodeName && this.banDuration == banDuration
      ensures machineBans == map[]
    {
      this.clusterUID := clusterUID;
      this.nodeName := nodeName;
      this.banDuration := banDuration;
      machineBans := map[];
    }

    method BanMachine(stableID: int, now: int)
      modifies this
      ensures machineBans == old(machineBans)[stableID := now]
    {
      machineBans := machineBans[stableID := now];
    }

    method GetRentalCandidates(sorted: seq<BundleOffer>, priceMax: Option<real>) returns (offers: seq<Offer>)
      ensures offers == Affordable(sorted, priceMax)
    {
      offers := [];
      for i := 0 to |sorted|
        invariant offers == Affordable(sorted[..i], priceMax)
      {
        assert sorted[..i + 1][..i] == sorted[..i];
        if priceMax.Some? && sorted[i].dphTotal > priceMax.value { continue; }
        offers := offers + [Offer(sorted[i].id, sorted[i].machineId)];
      }
      assert sorted[..|sorted|] == sorted;
    }

    /** Refilters the sorted offers for bans and asks for them in turn. */
    method SelectAndProvisionMachine(sorted: seq<BundleOffer>, priceMax: Option<real>, now: int, tries: nat -> Try)
      returns (r: Result<int, Failure>, requests: nat)
      ensures (r, requests) == Provision(Candidates(Affordable(sorted, priceMax), machineBans, banDuration, now), tries)
    {
      var offers := GetRentalCandidates(sorted, priceMax);
      var candidatesFiltered := [];
      for i := 0 to |offers|
        invariant candidatesFiltered == Candidates(offers[..i], machineBans, banDuration, now)
      {
        assert offers[..i + 1][..i] == offers[..i];
        var offer := offers[i];
        if offer.machineId !in machineBans || (banDuration > 0 && now - machineBans[offer.machineId] > banDuration) {
          candidatesFiltered := candidatesFiltered + [offer.offerId];
        }
      }
      assert offers[..|offers|] == offers;
      r, requests := ProvisionMachine(candidatesFiltered, tries);
    }

    method ProvisionMachine(candidatesID: seq<int>, tries: nat -> Try) returns (r: Result<int, Failure>, requests: nat)
      ensures (r, requests) == Provision(candidatesID, tries)
    {
      if |candidatesID| == 0 { return Err(NoCandidates), 0; }
      requests := 0;
      for idx := 0 to |candidatesID|
        invariant requests == idx
        invariant ProvisionFrom(candidatesID, tries, idx) == ProvisionFrom(candidatesID, tries, 0)
      {
        if tries(idx).cancelled { return Err(ContextEnded), requests; }
        var answer := tries(idx).answer;
        requests := requests + 1;
        if answer == BadRequest { continue; }
        if answer == Unauthorized { return Err(NotAuthorized), requests; }
        if answer == CallFailed { continue; }
        if answer == NotGranted { continue; }
        return Ok(answer.contract), requests;
      }
      return Err(AllRefused), requests;
    }

    /** Follows the token chain; `chain` is the chain, which has to be finite. */
    method ListMachinesInternal(listing: Listing, ghost chain: seq<string>) returns (r: Result<seq<Machine>, ()>)
      requires TokenChain(listing, chain)
      ensures r == if listing(chain[|chain| - 1]).None? then Err(())
                   else Ok(Filtered(Concatenated(listing, chain), clusterUID, nodeName))
    {
      var machines: seq<Machine> := [];
      var afterToken := "";
      ghost var i := 0;
      while true
        invariant 0 <= i < |chain| && afterToken == chain[i]
        invariant machines == Concatenated(listing, chain[..i])
        decreases |chain| - i
      {
        var page := listing(afterToken);
        if page.None? { return Err(()); }
        machines := machines + page.value.instances;
        assert chain[..i + 1][..i] == chain[..i];
        if page.value.nextToken == "" || page.value.nextToken == afterToken { break; }
        afterToken := page.value.nextToken;
        i := i + 1;
      }
      assert chain[..i + 1] == chain;

      var filteredMachines := FilterMachines(machines);
      return Ok(filteredMachines);
    }

    method FilterMachines(machines: seq<Machine>) returns (filteredMachines: seq<Machine>)
      ensures filteredMachines == Filtered(machines, clusterUID, nodeName)
    {
      filteredMachines := [];
      for k := 0 to |machines|
        invariant filteredMachines == Filtered(machines[..k], clusterUID, nodeName)
      {
        assert machines[..k + 1][..k] == machines[..k];
        var tag := ParseMachineLabel(machines[k].tag);
        if tag.None? { continue; }
        if tag.value.clusterUID == clusterUID && tag.value.nodeName == nodeName {
          filteredMachines := filteredMachines + [machines[k]];
        }
      }
      assert machines[..|machines|] == machines;
    }

    method IsStray(machine: Machine, podUIDs: seq<string>) returns (stray: bool)
      ensures stray <==> Stray(machine, clusterUID, podUIDs)
    {
      var tag := ParseMachineLabel(machine.tag);
      if tag.None? { return false; }
      if tag.value.clusterUID != clusterUID { return false; }
      var podUID := tag.value.podUID;
      for j := 0 to |podUIDs|
        invariant podUID !in podUIDs[..j]
      {
        if podUID == podUIDs[j] { return false; }
      }
      return true;
    }

    /** The machines it asks to destroy, in order; a failed destroy does not stop it. */
    method PruneDanglingMachines(listing: Listing, ghost chain: seq<string>, podUIDs: seq<string>)
      returns (r: Result<seq<int>, ()>)
      requires TokenChain(listing, chain)
      ensures r.Err? <==> listing(chain[|chain| - 1]).None?
      ensures r.Ok? ==> r.value == Dangling(Filtered(Concatenated(listing, chain), clusterUID, nodeName),
                                            clusterUID, podUIDs)
    {
      var listed := ListMachinesInternal(listing, chain);
      if listed.Err? { return Err(()); }
      var asked := AskedFor(listed.value, podUIDs);
      return Ok(asked);
    }

    method AskedFor(machines: seq<Machine>, podUIDs: seq<string>) returns (asked: seq<int>)
      ensures asked == Dangling(machines, clusterUID, podUIDs)
    {
      asked := [];
      for i := 0 to |machines|
        invariant asked == Dangling(machines[..i], clusterUID, podUIDs)
      {
        assert machines[..i + 1][..i] == machines[..i];
        var stray := IsStray(machines[i], podUIDs);
        if stray {
          asked := asked + [machines[i].id];
        }
      }
      assert machines[..|machines|] == machines;
    }
  }
}
