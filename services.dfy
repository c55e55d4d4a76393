/**
 * The services page: the catalogue of billable services per state, its
 * filter by state and category, add / update / delete, the margin colour,
 * and the demo catalogue built on first load. Prices, margins and the other
 * random fields of the demo catalogue are inputs; `Date.now()` and
 * `toISOString()` are the parameters `newId` and `nowIso`.
 */
module Services {
  import opened Base
  import opened Seqs
  import opened Text

  datatype Service = Service(
    id: string,
    name: string,
    code: string,
    description: string,
    state: string,
    category: string,
    basePrice: real,
    avgDuration: int,
    providers: int,
    monthlyVolume: int,
    reimbursementRate: real,
    profitMargin: int,
    lastUpdated: string)

  /** The add form's fields (`newService`). */
  datatype Draft = Draft(
    name: string,
    code: string,
    description: string,
    state: string,
    category: string,
    basePrice: real,
    avgDuration: int,
    reimbursementRate: real)

  // ---------------------------------------------------------------------------
  // Filtering
  // ---------------------------------------------------------------------------

  /** A service passes the selectors: an empty selector imposes nothing. */
  predicate Selected(s: Service, selectedState: string, selectedCategory: string) {
    (selectedState == "" || s.state == selectedState) &&
    (selectedCategory == "" || s.category == selectedCategory)
  }

  /** `filterServices`: narrows a copy of the list by state, then by category. */
  method FilterServices(services: seq<Service>, selectedState: string, selectedCategory: string)
    returns (filtered: seq<Service>)
    ensures filtered == Filter(services, s => Selected(s, selectedState, selectedCategory))
    ensures forall i :: 0 <= i < |filtered| ==> Selected(filtered[i], selectedState, selectedCategory)
    ensures forall i :: 0 <= i < |services| && Selected(services[i], selectedState, selectedCategory) ==>
              services[i] in filtered
  {
    var byState := (s: Service) => s.state == selectedState;
    var byCategory := (s: Service) => s.category == selectedCategory;
    var selected := (s: Service) => Selected(s, selectedState, selectedCategory);
    filtered := services;
    if selectedState != "" {
      filtered := Filter(filtered, byState);
    }
    if selectedCategory != "" {
      filtered := Filter(filtered, byCategory);
    }
    if selectedState != "" && selectedCategory != "" {
      FilterTwice(services, byState, byCategory, selected);
    } else if selectedState != "" {
      FilterSamePredicate(services, byState, selected);
    } else if selectedCategory != "" {
      FilterSamePredicate(services, byCategory, selected);
    } else {
      FilterKeepsAll(services, selected);
    }
  }

  /** With both selectors empty the whole catalogue is shown, in order. */
  lemma NoSelectorShowsAll(services: seq<Service>)
    ensures Filter(services, s => Selected(s, "", "")) == services
  {
    FilterKeepsAll(services, s => Selected(s, "", ""));
  }

  // ---------------------------------------------------------------------------
  // Add, update, delete
  // ---------------------------------------------------------------------------

  /** `handleAddService`: the draft becomes a new service with no providers and no volume, appended last. */
  function AddService(services: seq<Service>, draft: Draft, newId: string, margin: int, nowIso: string)
    : (r: seq<Service>)
    ensures |r| == |services| + 1 && r[..|services|] == services
    ensures var s := r[|services|];
            && s.id == newId && s.providers == 0 && s.monthlyVolume == 0
            && s.name == draft.name && s.code == draft.code && s.description == draft.description
            && s.state == draft.state && s.category == draft.category && s.basePrice == draft.basePrice
            && s.avgDuration == draft.avgDuration && s.reimbursementRate == draft.reimbursementRate
            && s.profitMargin == margin && s.lastUpdated == nowIso
  {
    services + [Service(newId, draft.name, draft.code, draft.description, draft.state, draft.category,
                        draft.basePrice, draft.avgDuration, 0, 0, draft.reimbursementRate, margin, nowIso)]
  }

  /** `handleDeleteService(id)`: drops every service with the id, keeping the rest in order. */
  function DeleteService(services: seq<Service>, id: string): (r: seq<Service>)
    ensures |r| <= |services|
    ensures forall i :: 0 <= i < |r| ==> r[i].id != id
    ensures forall i :: 0 <= i < |services| && services[i].id != id ==> services[i] in r
  {
    Filter(services, (s: Service) => s.id != id)
  }

  /** Adding a service under a fresh id and deleting that id gives back the catalogue. */
  lemma AddThenDeleteRestores(services: seq<Service>, draft: Draft, newId: string, margin: int, nowIso: string)
    requires forall i :: 0 <= i < |services| ==> services[i].id != newId
    ensures DeleteService(AddService(services, draft, newId, margin, nowIso), newId) == services
  {
    var added := AddService(services, draft, newId, margin, nowIso);
    var keep := (s: Service) => s.id != newId;
    assert added == services + [added[|services|]];
    FilterConcat(services, [added[|services|]], keep);
    FilterKeepsAll(services, keep);
    assert Filter([added[|services|]], keep) == [];
  }

  /**
   * `handleUpdateService`: with nothing being edited, nothing changes;
   * otherwise every service with the edited id is replaced by the edited
   * service (margin and timestamp refreshed), and editing ends.
   */
  function UpdateService(services: seq<Service>, editing: Option<Service>, margin: int, nowIso: string)
    : (r: (seq<Service>, Option<Service>))
    ensures editing.None? ==> r == (services, None)
    ensures r.1 == None && |r.0| == |services|
    ensures editing.Some? ==> forall i :: 0 <= i < |services| ==>
              r.0[i] == if services[i].id == editing.value.id
                        then editing.value.(profitMargin := margin, lastUpdated := nowIso)
                        else services[i]
  {
    match editing
    case None => (services, None)
    case Some(e) =>
      var updated := e.(profitMargin := margin, lastUpdated := nowIso);
      (seq(|services|, i requires 0 <= i < |services| => if services[i].id == updated.id then updated else services[i]), None)
  }

  /** Saving the same edit twice is saving it once. */
  lemma UpdateIdempotent(services: seq<Service>, e: Service, margin: int, nowIso: string)
    ensures var once := UpdateService(services, Some(e), margin, nowIso).0;
            UpdateService(once, Some(e), margin, nowIso).0 == once
  {
  }

  /** An update keeps the set of ids, so it neither hides nor resurrects a service a delete would remove. */
  lemma UpdateKeepsIds(services: seq<Service>, e: Service, margin: int, nowIso: string)
    ensures var r := UpdateService(services, Some(e), margin, nowIso).0;
            forall i :: 0 <= i < |services| ==> r[i].id == services[i].id
  {
  }

  // ---------------------------------------------------------------------------
  // Margin colour
  // ---------------------------------------------------------------------------

  datatype MarginColor = Green | Yellow | Red

  /** `getMarginColor`: green from 30 on, yellow from 15 on, red below. */
  function MarginColorOf(margin: int): (c: MarginColor)
    ensures c == Green <==> margin >= 30
    ensures c == Yellow <==> 15 <= margin < 30
    ensures c == Red <==> margin < 15
  {
    if margin >= 30 then Green else if margin >= 15 then Yellow else Red
  }

  function Rank(c: MarginColor): nat {
    match c
    case Red => 0
    case Yellow => 1
    case Green => 2
  }

  /** A higher margin never gets a worse colour. */
  lemma MarginColorMonotone(a: int, b: int)
    requires a <= b
    ensures Rank(MarginColorOf(a)) <= Rank(MarginColorOf(b))
  {
  }

  // ---------------------------------------------------------------------------
  // The demo catalogue
  // ---------------------------------------------------------------------------

  const MockStates: seq<string> := ["Florida", "Texas", "California", "New York", "Washington"]
  const CategoryNames: seq<string> := ["Primary Care", "Specialty Care", "Diagnostic Services", "Procedures"]
  const CategoryServices: seq<seq<string>> := [
    ["Annual Wellness Visit", "Sick Visit", "Follow-up Visit", "Preventive Care"],
    ["Cardiology Consultation", "Dermatology Exam", "Orthopedic Evaluation", "Neurology Assessment"],
    ["Lab Work", "X-Ray", "EKG", "Ultrasound"],
    ["Minor Surgery", "Injection Therapy", "Wound Care", "Biopsy"]
  ]

  /** How many services the demo catalogue holds: five states, four categories of four. */
  const MockCount: nat := 80

  /**
   * The random fields of one demo service, the margin computed from them, and
   * the `new Date().toISOString()` read when it is pushed.
   */
  datatype MockDraw = MockDraw(basePrice: real, avgDuration: int, providers: int, monthlyVolume: int,
                               reimbursementRate: real, profitMargin: int, lastUpdated: string)

  /** Position of the `x`-th service of category `c` in state `s` in push order. */
  function Index(s: nat, c: nat, x: nat): nat {
    16 * s + 4 * c + x
  }

  /** A position splits back into its state, category and name indices. */
  lemma IndexParts(s: nat, c: nat, x: nat)
    requires c < 4 && x < 4
    ensures Index(s, c, x) / 16 == s && (Index(s, c, x) / 4) % 4 == c && Index(s, c, x) % 4 == x
  {
    var k := Index(s, c, x);
    assert k == 4 * (4 * s + c) + x;
    assert k / 4 == 4 * s + c;
    assert k / 16 == (k / 4) / 4;
  }

  /** The service at a position is built from that position's state, category and name. */
  lemma MockAtParts(s: nat, c: nat, x: nat, draw: nat -> MockDraw)
    requires s < 5 && c < 4 && x < 4
    ensures Index(s, c, x) < MockCount
    ensures var k := Index(s, c, x);
            var name := CategoryServices[c][x];
            var d := draw(k);
            MockAt(k, draw) ==
              Service(MockStates[s] + "-" + CategoryNames[c] + "-" + NatToString(x), name,
                      "CPT" + NatToString(99200 + k), "Standard " + ToLower(name) + " service",
                      MockStates[s], CategoryNames[c], d.basePrice, d.avgDuration, d.providers,
                      d.monthlyVolume, d.reimbursementRate, d.profitMargin, d.lastUpdated)
  {
    IndexParts(s, c, x);
  }

  /** The service pushed `k`-th: its state, category and name come from the position alone. */
  function MockAt(k: nat, draw: nat -> MockDraw): Service
    requires k < MockCount
  {
    var s, c, x := k / 16, (k / 4) % 4, k % 4;
    var state, category, name := MockStates[s], CategoryNames[c], CategoryServices[c][x];
    var d := draw(k);
    Service(state + "-" + category + "-" + NatToString(x), name, "CPT" + NatToString(99200 + k),
            "Standard " + ToLower(name) + " service", state, category,
            d.basePrice, d.avgDuration, d.providers, d.monthlyVolume, d.reimbursementRate,
            d.profitMargin, d.lastUpdated)
  }

  /** The first `|mock|` services of the catalogue, in push order. */
  ghost predicate CatalogueSoFar(mock: seq<Service>, draw: nat -> MockDraw) {
    |mock| <= MockCount && forall k :: 0 <= k < |mock| ==> mock[k] == MockAt(k, draw)
  }

  /** Pushing the next service of the catalogue extends the prefix. */
  lemma PushNext(mock: seq<Service>, svc: Service, draw: nat -> MockDraw)
    requires CatalogueSoFar(mock, draw) && |mock| < MockCount && svc == MockAt(|mock|, draw)
    ensures CatalogueSoFar(mock + [svc], draw)
  {
  }

  /** `generateMockServices`: three nested loops pushing one service per state, category and name. */
  method GenerateMockServices(draw: nat -> MockDraw) returns (mock: seq<Service>)
    ensures |mock| == MockCount
    ensures forall k :: 0 <= k < MockCount ==> mock[k] == MockAt(k, draw)
  {
    mock := [];
    var s := 0;
    while s < |MockStates|
      invariant 0 <= s <= |MockStates| && |mock| == 16 * s
      invariant CatalogueSoFar(mock, draw)
    {
      var c := 0;
      while c < |CategoryNames|
        invariant 0 <= c <= |CategoryNames| && |mock| == 16 * s + 4 * c
        invariant CatalogueSoFar(mock, draw)
      {
        var names := CategoryServices[c];
        var x := 0;
        while x < |names|
          invariant 0 <= x <= |names| && |mock| == Index(s, c, x)
          invariant CatalogueSoFar(mock, draw)
        {
          var k := |mock|;
          var d := draw(k);
          var state, category, name := MockStates[s], CategoryNames[c], names[x];
          var service := Service(state + "-" + category + "-" + NatToString(x), name,
                                 "CPT" + NatToString(99200 + k), "Standard " + ToLower(name) + " service",
                                 state, category, d.basePrice, d.avgDuration, d.providers,
                                 d.monthlyVolume, d.reimbursementRate, d.profitMargin, d.lastUpdated);
          MockAtParts(s, c, x, draw);
          PushNext(mock, service, draw);
          mock := mock + [service];
          x := x + 1;
        }
        c := c + 1;
      }
      s := s + 1;
    }
  }

  /** Each demo service's code is `CPT` followed by 99200 plus its position, so no two codes collide. */
  lemma MockCodesDistinct(draw: nat -> MockDraw, i: nat, j: nat)
    requires i < j < MockCount
    ensures MockAt(i, draw).code != MockAt(j, draw).code
  {
    MockCode(i, draw);
    MockCode(j, draw);
    NatToStringInjective(99200 + i, 99200 + j);
    PrefixKeepsDistinct("CPT", NatToString(99200 + i), NatToString(99200 + j));
  }

  /** The code of the `k`-th demo service. */
  lemma MockCode(k: nat, draw: nat -> MockDraw)
    requires k < MockCount
    ensures MockAt(k, draw).code == "CPT" + NatToString(99200 + k)
  {
  }

  /** A common prefix keeps distinct strings distinct. */
  lemma PrefixKeepsDistinct(p: string, a: string, b: string)
    requires a != b
    ensures p + a != p + b
  {
    assert (p + a)[|p|..] == a && (p + b)[|p|..] == b;
  }

  /** Each state holds exactly one contiguous block of sixteen positions. */
  lemma MockStateBlocks(draw: nat -> MockDraw, s: nat, k: nat)
    requires s < |MockStates| && k < MockCount
    ensures MockAt(k, draw).state == MockStates[s] <==> 16 * s <= k < 16 * s + 16
  {
    var t := k / 16;
    assert 16 * t <= k < 16 * t + 16;
    assert MockAt(k, draw).state == MockStates[t];
    if t != s {
      assert MockStates[t] != MockStates[s];
    }
  }
}
