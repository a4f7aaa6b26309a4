/** The save rules of the client / business unit / opportunity models: a business unit
    takes its client's user when it has none, a new client gets one default business
    unit, and an opportunity is rejected unless its client belongs to its agency and its
    business unit belongs to its client. */
module LegacyModels {
  import opened Wrappers
  import opened Schema

  datatype Client = Client(clientCode: string, name: string, description: Option<string>,
                           status: RecordStatus, user: UserId, agency: Id)

  datatype BusinessUnit = BusinessUnit(name: string, description: Option<string>,
                                       status: RecordStatus, user: Option<UserId>, client: Id)

  datatype Opportunity = Opportunity(name: string, description: Option<string>,
                                     status: OpportunityStatus, agency: Id, client: Id,
                                     businessUnit: Id, product: Id, target: Money,
                                     fiscalYear: Id, approved: bool, approvalUser: Option<UserId>)

  /** The three tables and the next primary key the database will hand out. */
  datatype Store = Store(clients: map<Id, Client>, units: map<Id, BusinessUnit>,
                         opportunities: map<Id, Opportunity>, nextId: Id)

  datatype SaveError =
    | MissingClient
    | MissingBusinessUnit
    | ClientAgencyMismatch
    | BusinessUnitClientMismatch
    | DuplicateKey

  /** Keys below `nextId` and every business unit pointing at an existing client. */
  predicate Valid(s: Store) {
    && (forall k :: k in s.clients ==> k < s.nextId)
    && (forall k :: k in s.units ==> k < s.nextId)
    && (forall k :: k in s.opportunities ==> k < s.nextId)
    && (forall k :: k in s.units ==> s.units[k].client in s.clients)
  }

  /** The business units that belong to client `c`. */
  function UnitsOf(s: Store, c: Id): set<Id> {
    set k | k in s.units && s.units[k].client == c
  }

  /** Writes a business unit whose client's user is `clientUser`, filling an unset user. */
  function StoreUnit(s: Store, pk: Option<Id>, bu: BusinessUnit, clientUser: UserId): (r: (Store, Id))
    ensures r.1 == KeyFor(s.nextId, pk)
    ensures r.0.units == s.units[r.1 := bu.(user := Some(bu.user.GetOr(clientUser)))]
    ensures r.0.clients == s.clients && r.0.opportunities == s.opportunities
  {
    var id := KeyFor(s.nextId, pk);
    var unit := if bu.user.None? then bu.(user := Some(clientUser)) else bu;
    (s.(units := s.units[id := unit], nextId := Advance(s.nextId, pk)), id)
  }

  /** `BusinessUnit.save`: a unit saved without a user takes its client's user;
      a unit that has one keeps it. */
  function SaveBusinessUnit(s: Store, pk: Option<Id>, bu: BusinessUnit): (r: Result<(Store, Id), SaveError>)
    ensures r.Failure? <==> bu.client !in s.clients
    ensures r.Success? ==> r.value.1 in r.value.0.units
    ensures r.Success? ==> var u := r.value.0.units[r.value.1];
      && u.user.Some?
      && (bu.user.Some? ==> u.user == bu.user)
      && (bu.user.None? ==> u.user == Some(s.clients[bu.client].user))
      && u == bu.(user := u.user)
    ensures r.Success? ==> forall k :: k in s.units && k != r.value.1 ==>
      k in r.value.0.units && r.value.0.units[k] == s.units[k]
    ensures r.Success? ==> r.value.0.clients == s.clients && r.value.0.opportunities == s.opportunities
    ensures r.Success? && Valid(s) ==> Valid(r.value.0)
  {
    if bu.client !in s.clients then Failure(MissingClient)
    else Success(StoreUnit(s, pk, bu, s.clients[bu.client].user))
  }

  /** `Client.save`: writes the client; when it is new (no primary key yet) it also creates
      one business unit named "Default Business Unit", which takes the client's user. */
  function SaveClient(s: Store, pk: Option<Id>, c: Client): (r: (Store, Id))
    requires Valid(s)
    ensures Valid(r.0)
    ensures r.1 in r.0.clients && r.0.clients[r.1] == c
    ensures forall k :: k in s.clients && k != r.1 ==> k in r.0.clients && r.0.clients[k] == s.clients[k]
    ensures r.0.opportunities == s.opportunities
    ensures pk.Some? ==> r.0.units == s.units
    ensures pk.None? ==> exists u :: (u !in s.units && r.0.units.Keys == s.units.Keys + {u}
      && r.0.units[u] == BusinessUnit(DefaultUnitName, Some(DefaultUnitDescription), Active, Some(c.user), r.1))
    ensures pk.None? ==> forall k :: k in s.units ==> r.0.units[k] == s.units[k]
    ensures pk.None? ==> |UnitsOf(r.0, r.1)| == 1
  {
    var id := KeyFor(s.nextId, pk);
    var s1 := s.(clients := s.clients[id := c], nextId := Advance(s.nextId, pk));
    if pk.None? then
      var unit := BusinessUnit(DefaultUnitName, Some(DefaultUnitDescription), Active, None, id);
      var (s2, u) := StoreUnit(s1, None, unit, c.user);
      assert forall k :: k in s.units ==> s.units[k].client != id;
      assert UnitsOf(s2, id) == {u};
      (s2, id)
    else
      (s1, id)
  }

  /** An opportunity collides with another on (agency, client, business unit, product, fiscal year). */
  predicate SameOpportunityKey(a: Opportunity, b: Opportunity) {
    a.agency == b.agency && a.client == b.client && a.businessUnit == b.businessUnit
    && a.product == b.product && a.fiscalYear == b.fiscalYear
  }

  /** The two integrity checks `Opportunity.save` makes before writing. */
  predicate Consistent(s: Store, o: Opportunity) {
    && o.client in s.clients && s.clients[o.client].agency == o.agency
    && o.businessUnit in s.units && s.units[o.businessUnit].client == o.client
  }

  /** `Opportunity.save`: rejected, with nothing written, when the client does not belong to
      the opportunity's agency or the business unit does not belong to its client (the
      agency check comes first), or when the unique key is taken. */
  function SaveOpportunity(s: Store, pk: Option<Id>, o: Opportunity): (r: Result<(Store, Id), SaveError>)
    ensures r.Success? <==> (Consistent(s, o) &&
      forall j :: j in s.opportunities && j != KeyFor(s.nextId, pk) ==> !SameOpportunityKey(s.opportunities[j], o))
    ensures o.client in s.clients && s.clients[o.client].agency != o.agency ==> r == Failure(ClientAgencyMismatch)
    ensures (o.client in s.clients && s.clients[o.client].agency == o.agency && o.businessUnit in s.units
             && s.units[o.businessUnit].client != o.client) ==> r == Failure(BusinessUnitClientMismatch)
    ensures r.Success? ==> r.value.1 == KeyFor(s.nextId, pk) && r.value.0.opportunities == s.opportunities[r.value.1 := o]
    ensures r.Success? ==> r.value.0.clients == s.clients && r.value.0.units == s.units
    ensures r.Success? && Valid(s) ==> Valid(r.value.0)
  {
    if o.client !in s.clients then Failure(MissingClient)
    else if s.clients[o.client].agency != o.agency then Failure(ClientAgencyMismatch)
    else if o.businessUnit !in s.units then Failure(MissingBusinessUnit)
    else if s.units[o.businessUnit].client != o.client then Failure(BusinessUnitClientMismatch)
    else
      var id := KeyFor(s.nextId, pk);
      if exists j :: j in s.opportunities && j != id && SameOpportunityKey(s.opportunities[j], o) then
        Failure(DuplicateKey)
      else
        Success((s.(opportunities := s.opportunities[id := o], nextId := Advance(s.nextId, pk)), id))
  }

  /** Every stored opportunity passes the save checks. */
  predicate AllConsistent(s: Store) {
    forall k :: k in s.opportunities ==> Consistent(s, s.opportunities[k])
  }

  /** Saving opportunities keeps every stored opportunity consistent with its client and unit. */
  lemma SaveOpportunityKeepsConsistency(s: Store, pk: Option<Id>, o: Opportunity)
    requires AllConsistent(s)
    requires SaveOpportunity(s, pk, o).Success?
    ensures AllConsistent(SaveOpportunity(s, pk, o).value.0)
  {
  }

  /** Saving an existing client again creates no further business unit, so a client keeps
      the single default unit it got on creation. */
  lemma DefaultUnitCreatedOnce(s: Store, c: Client, c2: Client)
    requires Valid(s)
    ensures var first := SaveClient(s, None, c);
            var second := SaveClient(first.0, Some(first.1), c2);
            UnitsOf(second.0, first.1) == UnitsOf(first.0, first.1) && |UnitsOf(second.0, first.1)| == 1
  {
    var first := SaveClient(s, None, c);
    var second := SaveClient(first.0, Some(first.1), c2);
    assert second.0.units == first.0.units;
  }
}
