/** Amberflo customers: the canonical projects trait, idempotent upserts, soft disabling, and the
    Stripe link that survives all of them. */
module Customers {
  import opened Ordering
  import opened Results

  // ---- canonical project lists --------------------------------------------

  datatype BindingPhase = Pending | ActiveBinding | Superseded

  datatype Binding = Binding(phase: BindingPhase, project: string)

  const ByName: string -> string := (x: string) => x

  /** The first occurrences of the nonempty names. */
  function Dedup(names: seq<string>): seq<string> {
    if names == [] then []
    else
      var n := |names| - 1;
      var front, last := Dedup(names[..n]), names[n];
      if last == "" || last in front then front else front + [last]
  }

  function SortedCopyOf(names: seq<string>): seq<string> { SortStable(Dedup(names), ByName) }

  /** The one strictly ascending listing of a set of names. */
  ghost predicate Lists(out: seq<string>, s: iset<string>) {
    StrictlyAscending(out) && forall x :: x in out <==> x in s
  }

  ghost function NonEmptyNames(names: seq<string>): iset<string> { iset x | x in names && x != "" }

  ghost function ActiveProjects(bindings: seq<Binding>): iset<string> {
    iset x | x != "" && Binding(ActiveBinding, x) in bindings
  }

  lemma {:induction false} DedupDistinct(names: seq<string>)
    ensures forall i, j | 0 <= i < j < |Dedup(names)| :: Dedup(names)[i] != Dedup(names)[j]
    ensures forall x :: x in Dedup(names) <==> x in names && x != ""
  {
    if names != [] {
      var n := |names| - 1;
      DedupDistinct(names[..n]);
      assert names == names[..n] + [names[n]];
    }
  }

  lemma SortedCopyLists(names: seq<string>)
    ensures Lists(SortedCopyOf(names), NonEmptyNames(names))
  {
    var d, out := Dedup(names), SortedCopyOf(names);
    DedupDistinct(names);
    SortStableCorrect(d, ByName);
    forall i, j | 0 <= i < j < |out| ensures out[i] != out[j] {
      if out[i] == out[j] {
        DistinctCountsOnce(d, out[i]);
        CountsTwice(out, i, j);
        assert false;
      }
    }
    assert forall i, j | 0 <= i < j < |out| :: !Less(ByName(out[j]), ByName(out[i]));
    StrictFromDistinct(out);
    forall x ensures x in out <==> x in NonEmptyNames(names) {
      assert x in out <==> x in multiset(out);
      assert x in d <==> x in multiset(d);
    }
  }

  lemma {:induction false} DistinctCountsOnce(s: seq<string>, x: string)
    requires forall i, j | 0 <= i < j < |s| :: s[i] != s[j]
    ensures multiset(s)[x] <= 1
  {
    if s != [] {
      assert s == [s[0]] + s[1..];
      DistinctCountsOnce(s[1..], x);
      assert s[0] !in s[1..];
    }
  }

  lemma CountsTwice(s: seq<string>, i: nat, j: nat)
    requires i < j < |s| && s[i] == s[j]
    ensures multiset(s)[s[i]] >= 2
  {
    assert s == s[..i] + [s[i]] + s[i + 1..j] + [s[j]] + s[j + 1..];
  }

  method SortedCopy(names: seq<string>) returns (out: seq<string>)
    ensures out == SortedCopyOf(names)
  {
    var seen: set<string> := {};
    var distinct: seq<string> := [];
    var i := 0;
    assert names[..0] == [];
    while i < |names|
      invariant 0 <= i <= |names|
      invariant distinct == Dedup(names[..i])
      invariant forall x :: x in seen <==> x in distinct
    {
      assert names[..i + 1][..i] == names[..i];
      if names[i] != "" && names[i] !in seen {
        seen := seen + {names[i]};
        distinct := distinct + [names[i]];
      }
      i := i + 1;
    }
    assert names[..i] == names;
    out := SortStable(distinct, ByName);
  }

  method ProjectsFromActiveBindings(bindings: seq<Binding>) returns (projects: seq<string>)
    ensures Lists(projects, ActiveProjects(bindings))
  {
    var names: seq<string> := [];
    var i := 0;
    while i < |bindings|
      invariant 0 <= i <= |bindings|
      invariant forall x :: x in names <==> x != "" && Binding(ActiveBinding, x) in bindings[..i]
    {
      var b := bindings[i];
      if b.phase == ActiveBinding && b.project != "" {
        names := names + [b.project];
      }
      i := i + 1;
    }
    projects := SortedCopy(names);
    SortedCopyLists(names);
  }

  /** The trait's list is sorted again here, from a set in no particular order. */
  method EncodeProjects(names: seq<string>) returns (list: seq<string>)
    ensures list == SortedCopyOf(names)
  {
    var rest := set x | x in names && x != "";
    ghost var all := rest;
    var out: seq<string> := [];
    while rest != {}
      invariant rest <= all
      invariant forall x :: x in out <==> x in all && x !in rest
      invariant forall i, j | 0 <= i < j < |out| :: out[i] != out[j]
      invariant "" !in out
      decreases rest
    {
      var p :| p in rest;
      rest := rest - {p};
      out := out + [p];
    }
    list := SortStable(out, ByName);
    AlreadyDistinct(out);
    SortedCopyLists(out);
    SortedCopyLists(names);
    CanonicalListing(list, SortedCopyOf(names));
  }

  lemma {:induction false} AlreadyDistinct(s: seq<string>)
    requires forall i, j | 0 <= i < j < |s| :: s[i] != s[j]
    requires "" !in s
    ensures Dedup(s) == s
  {
    if s != [] {
      var n := |s| - 1;
      AlreadyDistinct(s[..n]);
      assert s == s[..n] + [s[n]];
    }
  }

  // ---- customer records ---------------------------------------------------

  /** Trait values; numbers and lists stand for their encodings, which are never empty. */
  datatype TraitValue = Text(text: string) | Number(n: int) | ProjectList(list: seq<string>)

  type Traits = map<string, TraitValue>

  datatype PaymentTerms = PaymentTerms(netDays: int, invoiceFrequency: string, invoiceDayOfMonth: int)

  datatype DesiredCustomer = DesiredCustomer(
    id: string, name: string, email: string, currencyCode: string, terms: Option<PaymentTerms>,
    projects: seq<string>, extra: Traits)

  datatype Customer = Customer(name: string, email: string, traits: Traits, enabled: bool)

  const STRIPE_ID := "stripeid"
  const OLD_STRIPE_ID := "stripeId"
  const PAYMENT_PROVIDER := "paymentprovidername"

  function BuildWireCustomer(d: DesiredCustomer): Customer {
    var currency := d.extra["currencyCode" := Text(d.currencyCode)];
    var projects := if d.projects == [] then currency else currency["projects" := ProjectList(SortedCopyOf(d.projects))];
    var traits := if d.terms.None? then projects
                  else projects["payment.netDays" := Number(d.terms.value.netDays)]
                               ["payment.invoiceFrequency" := Text(d.terms.value.invoiceFrequency)]
                               ["payment.invoiceDayOfMonth" := Number(d.terms.value.invoiceDayOfMonth)];
    Customer(if d.name == "" then d.id else d.name, d.email, traits, true)
  }

  predicate CustomerNeedsUpdate(existing: Customer, want: Customer) {
    existing.name != want.name || existing.email != want.email || existing.enabled != want.enabled
    || existing.traits != want.traits
  }

  function Disabled(id: string, c: Customer, now: string): Customer {
    c.(name := if c.name == "" then id else c.name, enabled := false,
       traits := c.traits["enabled" := Text("false")]["archived_at" := Text(now)])
  }

  /** What an account asks for: its projects come from its bindings. */
  function DesiredFrom(account: DesiredCustomer, projects: seq<string>): DesiredCustomer {
    account.(projects := SortedCopyOf(projects), extra := map[])
  }

  /** The record, the projects trait included, depends only on which projects are actively bound:
      not on the order, number or age of the bindings. */
  lemma ProjectsTraitCanonical(account: DesiredCustomer, a: seq<Binding>, b: seq<Binding>, x: seq<string>, y: seq<string>)
    requires ActiveProjects(a) == ActiveProjects(b)
    requires Lists(x, ActiveProjects(a)) && Lists(y, ActiveProjects(b))
    ensures BuildWireCustomer(DesiredFrom(account, x)) == BuildWireCustomer(DesiredFrom(account, y))
    ensures x == y == SortedCopyOf(SortedCopyOf(x))
    ensures x != [] <==> "projects" in BuildWireCustomer(DesiredFrom(account, x)).traits
    ensures x != [] ==> BuildWireCustomer(DesiredFrom(account, x)).traits["projects"] == ProjectList(x)
  {
    CanonicalListing(x, y);
    SortedCopyLists(x);
    CanonicalListing(x, SortedCopyOf(x));
  }

  /** Customers and the faults of the requests that reach them. A write replaces a record whole. */
  class CustomerServer {
    const faults: nat -> Fault
    var tick: nat
    var customers: map<string, Customer>
    var writes: nat

    ghost predicate FailureFree()
      reads this
    {
      forall k | k >= tick :: faults(k).Delivered?
    }

    method Get(id: string) returns (r: Result<Customer>)
      modifies this`tick
      ensures tick >= old(tick)
      ensures r.Ok? ==> id in customers && customers[id] == r.value
      ensures r == Err(NotFound) ==> id !in customers
      ensures old(FailureFree()) && id != "" ==> r.Ok? || r == Err(NotFound)
    {
      if id == "" {
        return Err(Permanent(BadRequest));
      }
      var f := faults(tick);
      tick := tick + 1;
      if !Answered(f) {
        return Err(GlitchFailure(f.glitch));
      }
      return if id in customers then Ok(customers[id]) else Err(NotFound);
    }

    method Put(id: string, c: Customer) returns (r: Result<Customer>)
      modifies this
      ensures tick >= old(tick) && writes == old(writes) + 1
      ensures customers == old(customers) || customers == old(customers)[id := c]
      ensures r.Ok? ==> r.value == c && customers == old(customers)[id := c]
      ensures r.Err? ==> r.error != NotFound
      ensures old(FailureFree()) ==> r.Ok?
    {
      var f := faults(tick);
      tick, writes := tick + 1, writes + 1;
      if !f.Dropped? {
        customers := customers[id := c];
      }
      r := if Answered(f) then Ok(c) else Err(GlitchFailure(f.glitch));
    }
  }

  method EnsureCustomer(s: CustomerServer, d: DesiredCustomer) returns (r: Result<Customer>)
    modifies s
    ensures s.tick >= old(s.tick)
    ensures s.customers == old(s.customers) || s.customers == old(s.customers)[d.id := BuildWireCustomer(d)]
    ensures r.Ok? ==> d.id in s.customers && s.customers[d.id] == r.value == BuildWireCustomer(d)
    // A repeated call writes nothing.
    ensures d.id in old(s.customers) && old(s.customers)[d.id] == BuildWireCustomer(d) ==>
              s.writes == old(s.writes) && s.customers == old(s.customers)
    ensures old(s.FailureFree()) && d.id != "" ==> r.Ok?
  {
    if d.id == "" {
      return Err(Permanent(BadRequest));
    }
    var want := BuildWireCustomer(d);
    var existing := s.Get(d.id);
    if existing == Err(NotFound) {
      r := s.Put(d.id, want);
      return;
    }
    if existing.Err? || !CustomerNeedsUpdate(existing.value, want) {
      return existing;
    }
    r := s.Put(d.id, want);
  }

  method DisableCustomer(s: CustomerServer, id: string, now: string) returns (r: Result<()>)
    modifies s
    ensures s.tick >= old(s.tick)
    ensures DisableEffect(old(s.customers), s.customers, id, now)
    ensures r.Ok? && id in s.customers ==> !s.customers[id].enabled
    ensures LinksKept(old(s.customers), s.customers)
    ensures old(s.FailureFree()) && id != "" ==> r.Ok?
  {
    var existing := s.Get(id);
    if existing == Err(NotFound) {
      return Ok(());
    }
    if existing.Err? {
      return Err(existing.error);
    }
    var c := existing.value;
    var traits := c.traits["enabled" := Text("false")]["archived_at" := Text(now)];
    var put := s.Put(id, Customer(if c.name == "" then id else c.name, c.email, traits, false));
    return if put.Ok? then Ok(()) else Err(put.error);
  }

  // ---- the Stripe link ----------------------------------------------------

  predicate Blank(traits: Traits, key: string) { key !in traits || traits[key] == Text("") }

  /** The customer carries a Stripe id, under the present or the former trait key. */
  predicate Linked(traits: Traits) { !Blank(traits, STRIPE_ID) || !Blank(traits, OLD_STRIPE_ID) }

  function StripeTraits(id: TraitValue, provider: TraitValue): Traits {
    map[STRIPE_ID := id, PAYMENT_PROVIDER := provider]
  }

  function StripeTraitsFromExisting(traits: Traits): Traits {
    if !Linked(traits) then map[]
    else StripeTraits(if Blank(traits, STRIPE_ID) then traits[OLD_STRIPE_ID] else traits[STRIPE_ID],
                      if Blank(traits, PAYMENT_PROVIDER) then Text("stripe") else traits[PAYMENT_PROVIDER])
  }

  /** No customer disappears, and none that was linked to Stripe loses the link. */
  predicate LinksKept(before: map<string, Customer>, after: map<string, Customer>) {
    forall id | id in before :: id in after && (Linked(before[id].traits) ==> Linked(after[id].traits))
  }

  lemma ReservedKeysSpareStripe(d: DesiredCustomer)
    requires STRIPE_ID in d.extra && !Blank(d.extra, STRIPE_ID)
    ensures Linked(BuildWireCustomer(d).traits) && BuildWireCustomer(d).traits[STRIPE_ID] == d.extra[STRIPE_ID]
  {
  }

  /** The Stripe traits a reconcile asks for, given the traits that are stored. */
  function ExtraTraits(stripeId: string, stored: Traits): Traits {
    if stripeId != "" then StripeTraits(Text(stripeId), Text("stripe")) else StripeTraitsFromExisting(stored)
  }

  /** The stored record is what a reconcile that finds it would ask for. */
  predicate Synced(account: DesiredCustomer, stripeId: string, c: Customer) {
    c == BuildWireCustomer(account.(extra := ExtraTraits(stripeId, c.traits)))
  }

  /** Preserved traits are preserved again. */
  lemma ExtraTraitsStable(account: DesiredCustomer, stripeId: string, stored: Traits)
    ensures Synced(account, stripeId, BuildWireCustomer(account.(extra := ExtraTraits(stripeId, stored))))
  {
    var extra := ExtraTraits(stripeId, stored);
    var c := BuildWireCustomer(account.(extra := extra));
    StripeKeysUntouched(account.(extra := extra));
    if stripeId == "" {
      assert Linked(stored) ==> !Blank(extra, STRIPE_ID) && !Blank(extra, PAYMENT_PROVIDER);
      assert STRIPE_ID[0] == 's' && PAYMENT_PROVIDER[0] == 'p' && OLD_STRIPE_ID[6] == 'I' && STRIPE_ID[6] == 'i';
      assert OLD_STRIPE_ID !in extra;
    }
  }

  lemma StripeKeysUntouched(d: DesiredCustomer)
    ensures forall k | k in {STRIPE_ID, OLD_STRIPE_ID, PAYMENT_PROVIDER} ::
              (k in d.extra <==> k in BuildWireCustomer(d).traits)
              && (k in d.extra ==> BuildWireCustomer(d).traits[k] == d.extra[k])
  {
  }

  /** The customer part of a BillingAccount reconcile: attach the resolved Stripe id, or preserve
      the link that is there, then upsert. */
  method SyncCustomer(s: CustomerServer, account: DesiredCustomer, stripeId: string) returns (r: Result<Customer>)
    modifies s
    ensures s.tick >= old(s.tick)
    ensures SyncEffect(old(s.customers), s.customers, account, stripeId)
    ensures LinksKept(old(s.customers), s.customers)
    ensures r.Ok? ==>
              account.id in s.customers && s.customers[account.id] == r.value && r.value.enabled
              && Synced(account, stripeId, r.value)
    ensures r.Ok? && stripeId != "" ==>
              STRIPE_ID in r.value.traits && r.value.traits[STRIPE_ID] == Text(stripeId)
    // Once synced, repeated reconciles write nothing.
    ensures account.id in old(s.customers) && Synced(account, stripeId, old(s.customers)[account.id]) ==>
              s.writes == old(s.writes) && s.customers == old(s.customers)
    ensures old(s.FailureFree()) && account.id != "" ==> r.Ok?
  {
    ghost var before := s.customers;
    ghost var stored := if account.id in before then before[account.id].traits else map[];
    var desired := account;
    if stripeId != "" {
      desired := account.(extra := StripeTraits(Text(stripeId), Text("stripe")));
      ReservedKeysSpareStripe(desired);
    } else {
      var existing := s.Get(account.id);
      if existing.Err? && existing.error != NotFound {
        return existing;
      }
      desired := account.(extra := if existing.Ok? then StripeTraitsFromExisting(existing.value.traits) else map[]);
    }
    assert desired == account.(extra := ExtraTraits(stripeId, stored));
    ExtraTraitsStable(account, stripeId, stored);
    hide BuildWireCustomer;
    r := EnsureCustomer(s, desired);
    SyncKeepsLinks(before, s.customers, account, stripeId);
  }

  /** What a reconcile of one account may do, finished or cut short: nothing, or write the record
      that the account asks for on top of the traits it found. */
  predicate SyncEffect(before: map<string, Customer>, after: map<string, Customer>, account: DesiredCustomer,
                       stripeId: string) {
    var stored := if account.id in before then before[account.id].traits else map[];
    after == before
    || after == before[account.id := BuildWireCustomer(account.(extra := ExtraTraits(stripeId, stored)))]
  }

  /** What a disable may do. */
  predicate DisableEffect(before: map<string, Customer>, after: map<string, Customer>, id: string, now: string) {
    after == before || (id in before && after == before[id := Disabled(id, before[id], now)])
  }

  ghost predicate CustomerStep(before: map<string, Customer>, after: map<string, Customer>) {
    || (exists account, stripeId :: SyncEffect(before, after, account, stripeId))
    || (exists id, now :: DisableEffect(before, after, id, now))
  }

  lemma SyncKeepsLinks(before: map<string, Customer>, after: map<string, Customer>, account: DesiredCustomer,
                       stripeId: string)
    requires SyncEffect(before, after, account, stripeId)
    ensures LinksKept(before, after)
  {
    hide BuildWireCustomer;
    if account.id in before && Linked(before[account.id].traits) {
      ReservedKeysSpareStripe(account.(extra := ExtraTraits(stripeId, before[account.id].traits)));
    }
  }

  lemma StepKeepsLinks(before: map<string, Customer>, after: map<string, Customer>)
    requires CustomerStep(before, after)
    ensures LinksKept(before, after)
  {
    if account, stripeId :| SyncEffect(before, after, account, stripeId) {
      SyncKeepsLinks(before, after, account, stripeId);
    }
  }

  ghost predicate StepAt(run: seq<map<string, Customer>>, k: nat)
    requires k + 1 < |run|
  {
    CustomerStep(run[k], run[k + 1])
  }

  /** Over any run of reconciles and disables, finished or cut short, of any accounts with any resolved
      Stripe ids, a Stripe link once made is never lost. */
  lemma {:induction false} StripeLinkNeverLost(run: seq<map<string, Customer>>, id: string)
    requires |run| > 0 && forall k | 0 <= k < |run| - 1 :: StepAt(run, k)
    requires id in run[0] && Linked(run[0][id].traits)
    ensures id in run[|run| - 1] && Linked(run[|run| - 1][id].traits)
  {
    if |run| > 1 {
      var n := |run| - 2;
      var shorter := run[..n + 1];
      forall k | 0 <= k < |shorter| - 1 ensures StepAt(shorter, k) {
        assert StepAt(run, k);
      }
      StripeLinkNeverLost(shorter, id);
      assert StepAt(run, n);
      StepKeepsLinks(run[n], run[n + 1]);
    }
  }
}
