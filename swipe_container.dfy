/** The swipe deck of the discovery page: a loaded list of profiles, a
    cursor on the profile shown, and the ids of the profiles connected to so
    far. The two handlers are modelled as pure steps on a `Deck` value
    (`SwipeLeft`, `SwipeRight`), which the class `SwipeContainer` carries out
    in place on its fields. */
module SwipeDeck {

  datatype Profile = Profile(
    id: string,
    name: string,
    age: int,
    photo: string,
    occupation: string,
    company: string,
    location: string,
    education: string,
    bio: string,
    skills: seq<string>,
    lookingFor: seq<string>)

  /** The toasts the handlers raise. */
  datatype Notice = NewConnection(name: string) | NoMoreProfiles

  datatype Swipe = Left | Right

  datatype Deck = Deck(profiles: seq<Profile>, currentIndex: nat, connections: seq<string>)

  /** The state after a handler and the notices it raised, in order. */
  datatype Step = Step(deck: Deck, notices: seq<Notice>)

  /** The three branches of the component's render. */
  datatype Screen = Loading | SeenAll | Showing(profile: Profile)

  /** The state once the profile list has been loaded. */
  function Init(profiles: seq<Profile>): Deck
  {
    Deck(profiles, 0, [])
  }

  predicate IsLoadedId(profiles: seq<Profile>, id: string)
  {
    exists k :: 0 <= k < |profiles| && profiles[k].id == id
  }

  /** What every reachable deck satisfies: the cursor is on a loaded profile
      (or still 0 when nothing was loaded), and every connection is the id of
      a loaded profile. */
  ghost predicate Invariant(d: Deck)
  {
    && (d.currentIndex < |d.profiles| || d.currentIndex == 0)
    && forall i :: 0 <= i < |d.connections| ==> IsLoadedId(d.profiles, d.connections[i])
  }

  function Render(d: Deck): (r: Screen)
    ensures r == SeenAll <==> |d.profiles| > 0 && d.currentIndex >= |d.profiles|
    ensures r.Showing? ==> r.profile in d.profiles
    ensures r == Loading <==> |d.profiles| == 0
    ensures 0 < |d.profiles| && d.currentIndex < |d.profiles| ==> r == Showing(d.profiles[d.currentIndex])
  {
    if |d.profiles| == 0 then Loading
    else if d.currentIndex >= |d.profiles| then SeenAll
    else Showing(d.profiles[d.currentIndex])
  }

  /** `handleSwipeLeft`: advance unless the cursor is on the last profile
      (or nothing is loaded); then only raise "No more profiles". */
  function SwipeLeft(d: Deck): (r: Step)
    ensures r.deck.profiles == d.profiles && r.deck.connections == d.connections
    ensures r.deck.currentIndex == d.currentIndex + 1 || r.deck.currentIndex == d.currentIndex
    ensures r.notices == (if r.deck.currentIndex == d.currentIndex then [NoMoreProfiles] else [])
    ensures r.deck.currentIndex == d.currentIndex + 1 <==> d.currentIndex + 1 < |d.profiles|
  {
    if d.currentIndex < |d.profiles| - 1 then Step(d.(currentIndex := d.currentIndex + 1), [])
    else Step(d, [NoMoreProfiles])
  }

  /** `handleSwipeRight`: when the cursor is on a profile, append its id to
      the connections, then advance unless it is the last profile. */
  function SwipeRight(d: Deck): (r: Step)
    ensures r.deck.profiles == d.profiles
    ensures d.currentIndex < |d.profiles| ==>
      r.deck.connections == d.connections + [d.profiles[d.currentIndex].id]
    ensures d.currentIndex >= |d.profiles| ==> r == Step(d, [])
    ensures r.deck.currentIndex == d.currentIndex + 1 || r.deck.currentIndex == d.currentIndex
    ensures r.deck.currentIndex == d.currentIndex + 1 <==> d.currentIndex + 1 < |d.profiles|
    ensures NoMoreProfiles in r.notices <==> d.currentIndex == |d.profiles| - 1
    ensures d.currentIndex < |d.profiles| ==>
      r.notices == [NewConnection(d.profiles[d.currentIndex].name)] +
        (if d.currentIndex + 1 < |d.profiles| then [] else [NoMoreProfiles])
  {
    if d.currentIndex < |d.profiles| then
      var p := d.profiles[d.currentIndex];
      var added := d.(connections := d.connections + [p.id]);
      if d.currentIndex < |d.profiles| - 1 then
        Step(added.(currentIndex := d.currentIndex + 1), [NewConnection(p.name)])
      else
        Step(added, [NewConnection(p.name), NoMoreProfiles])
    else
      Step(d, [])
  }

  function Apply(d: Deck, s: Swipe): Step
  {
    match s
    case Left => SwipeLeft(d)
    case Right => SwipeRight(d)
  }

  /** The deck after a sequence of swipes, one handler call each. */
  function Run(d: Deck, swipes: seq<Swipe>): Deck
    decreases |swipes|
  {
    if swipes == [] then d else Run(Apply(d, swipes[0]).deck, swipes[1..])
  }

  function CountRights(swipes: seq<Swipe>): (n: nat)
    ensures n <= |swipes|
  {
    if swipes == [] then 0 else (if swipes[0] == Right then 1 else 0) + CountRights(swipes[1..])
  }

  function Repeat<T>(x: T, n: nat): (r: seq<T>)
    ensures |r| == n
    ensures forall i :: 0 <= i < n ==> r[i] == x
  {
    if n == 0 then [] else [x] + Repeat(x, n - 1)
  }

  lemma InitInvariant(profiles: seq<Profile>)
    ensures Invariant(Init(profiles))
  {
  }

  lemma StepPreservesInvariant(d: Deck, s: Swipe)
    requires Invariant(d)
    ensures Invariant(Apply(d, s).deck)
  {
    if s == Right && d.currentIndex < |d.profiles| {
      assert IsLoadedId(d.profiles, d.profiles[d.currentIndex].id);
    }
  }

  /** Every reachable deck keeps the invariant. */
  lemma {:induction false} RunPreservesInvariant(d: Deck, swipes: seq<Swipe>)
    requires Invariant(d)
    ensures Invariant(Run(d, swipes))
    decreases |swipes|
  {
    if swipes != [] {
      StepPreservesInvariant(d, swipes[0]);
      RunPreservesInvariant(Apply(d, swipes[0]).deck, swipes[1..]);
    }
  }

  /** Whatever the swipes, the "seen all profiles" branch is never rendered:
      the deck shows a profile when one was loaded, and "Loading" otherwise. */
  lemma SeenAllUnreachable(profiles: seq<Profile>, swipes: seq<Swipe>)
    ensures Render(Run(Init(profiles), swipes)) != SeenAll
    ensures |profiles| > 0 ==> Render(Run(Init(profiles), swipes)).Showing?
  {
    RunPreservesInvariant(Init(profiles), swipes);
    RunIndexBounds(Init(profiles), swipes);
  }

  /** The cursor never moves back and moves by at most one per swipe. */
  lemma {:induction false} RunIndexBounds(d: Deck, swipes: seq<Swipe>)
    ensures Run(d, swipes).profiles == d.profiles
    ensures d.currentIndex <= Run(d, swipes).currentIndex <= d.currentIndex + |swipes|
    decreases |swipes|
  {
    if swipes != [] {
      RunIndexBounds(Apply(d, swipes[0]).deck, swipes[1..]);
    }
  }

  /** Connections only grow at the end, and by exactly one id per right
      swipe once profiles are loaded. */
  lemma {:induction false} RunConnectionsGrow(d: Deck, swipes: seq<Swipe>)
    requires Invariant(d) && |d.profiles| > 0
    ensures |Run(d, swipes).connections| == |d.connections| + CountRights(swipes)
    ensures Run(d, swipes).connections[..|d.connections|] == d.connections
    decreases |swipes|
  {
    if swipes != [] {
      var next := Apply(d, swipes[0]).deck;
      StepPreservesInvariant(d, swipes[0]);
      RunConnectionsGrow(next, swipes[1..]);
      var final := Run(next, swipes[1..]).connections;
      assert next.connections[..|d.connections|] == d.connections;
      assert final[..|d.connections|] == final[..|next.connections|][..|d.connections|];
    }
  }

  /** With nothing loaded, no sequence of swipes changes the deck. */
  lemma {:induction false} RunOnEmptyDeck(d: Deck, swipes: seq<Swipe>)
    requires |d.profiles| == 0
    ensures Run(d, swipes) == d
    decreases |swipes|
  {
    if swipes != [] {
      RunOnEmptyDeck(Apply(d, swipes[0]).deck, swipes[1..]);
    }
  }

  /** On the last profile a left swipe keeps the cursor and only raises the notice. */
  lemma LeftAtLastProfile(d: Deck)
    requires |d.profiles| > 0 && d.currentIndex == |d.profiles| - 1
    ensures SwipeLeft(d) == Step(d, [NoMoreProfiles])
  {
  }

  /** On the last profile, n right swipes keep the cursor there and append
      n copies of that profile's id. */
  lemma {:induction false} RightsAtLastProfile(d: Deck, n: nat)
    requires |d.profiles| > 0 && d.currentIndex == |d.profiles| - 1
    ensures Run(d, Repeat(Right, n)) ==
      d.(connections := d.connections + Repeat(d.profiles[d.currentIndex].id, n))
    decreases n
  {
    var id := d.profiles[d.currentIndex].id;
    if n > 0 {
      var next := SwipeRight(d).deck;
      assert Repeat(Right, n)[1..] == Repeat(Right, n - 1);
      RightsAtLastProfile(next, n - 1);
      assert next.connections + Repeat(id, n - 1) == d.connections + Repeat(id, n);
    }
  }

  /** Three profiles, swiped left, right, left: the third swipe finds the
      cursor on the last profile, so it stays there and only "B" is connected. */
  lemma ThreeProfileSession(a: Profile, b: Profile, c: Profile)
    ensures Run(Init([a, b, c]), [Left, Right, Left]) == Deck([a, b, c], 2, [b.id])
  {
    var d1 := SwipeLeft(Init([a, b, c])).deck;
    var d2 := SwipeRight(d1).deck;
    assert [Left, Right, Left][1..] == [Right, Left];
    assert [Right, Left][1..] == [Left];
    assert d2 == Deck([a, b, c], 2, [b.id]);
  }

  /** The `SwipeContainer` component's state. */
  class SwipeContainer {
    const profiles: seq<Profile>
    var currentIndex: nat
    var connections: seq<string>

    function State(): Deck
      reads this
    {
      Deck(profiles, currentIndex, connections)
    }

    ghost predicate Valid()
      reads this
    {
      Invariant(State())
    }

    /** The component once its profile list has been loaded. */
    constructor (loaded: seq<Profile>)
      ensures Valid()
      ensures State() == Init(loaded)
    {
      profiles := loaded;
      currentIndex := 0;
      connections := [];
    }

    function CurrentScreen(): (r: Screen)
      reads this
      requires Valid()
      ensures r != SeenAll
    {
      Render(State())
    }

    method HandleSwipeLeft() returns (notices: seq<Notice>)
      requires Valid()
      modifies this
      ensures Valid()
      ensures Step(State(), notices) == SwipeLeft(old(State()))
      ensures connections == old(connections)
    {
      if currentIndex < |profiles| - 1 {
        currentIndex := currentIndex + 1;
        notices := [];
      } else {
        notices := [NoMoreProfiles];
      }
    }

    method HandleSwipeRight() returns (notices: seq<Notice>)
      requires Valid()
      modifies this
      ensures Valid()
      ensures Step(State(), notices) == SwipeRight(old(State()))
      ensures old(currentIndex) < |profiles| ==>
        connections == old(connections) + [profiles[old(currentIndex)].id]
    {
      notices := [];
      if currentIndex < |profiles| {
        var p := profiles[currentIndex];
        connections := connections + [p.id];
        notices := [NewConnection(p.name)];
        if currentIndex < |profiles| - 1 {
          currentIndex := currentIndex + 1;
        } else {
          notices := notices + [NoMoreProfiles];
        }
        assert IsLoadedId(profiles, p.id);
      }
    }
  }
}
