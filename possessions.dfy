// Possessions of the older item model (possess/mod.rs, possess/gotchi.rs,
// possess/seed.rs): a possession is one of a gotchi, a seed or a keepsake,
// plus what every possession has: its archetype handle, id, steader,
// ownership log and sale.
module Possessions {
  import opened Wrappers
  import opened Seqs
  import opened Uuids
  import opened Archetypes

  /** `GotchiHarvestOwner`: who harvested a gotchi, and how much. */
  datatype GotchiHarvestOwner = GotchiHarvestOwner(id: string, harvested: nat)

  /** `possess::Gotchi`. */
  datatype Gotchi = Gotchi(archetypeHandle: nat, nickname: string, harvestLog: seq<GotchiHarvestOwner>)

  /** `SeedGrower`: one grower in a seed's pedigree. */
  datatype SeedGrower = SeedGrower(id: string, generations: nat)

  /** `possess::Seed`. */
  datatype Seed = Seed(archetypeHandle: nat, pedigree: seq<SeedGrower>)

  /**
   * A keepsake: its archetype handle and first owner. Its own module is not
   * part of this model, so this stands for whatever `Keepsake::new` keeps.
   */
  datatype Keepsake = Keepsake(archetypeHandle: nat, ownerId: string)

  datatype PossessionKind = GotchiPossession(gotchi: Gotchi) | SeedPossession(seed: Seed) | KeepsakePossession(keepsake: Keepsake)

  /** `Gotchi::new`: named after its archetype, harvested by its owner 0 times. */
  function NewGotchi(archetypes: seq<Archetype>, ah: nat, ownerId: string): (g: Gotchi)
    requires ah < |archetypes|
    ensures g.archetypeHandle == ah && g.nickname == archetypes[ah].name
    ensures g.harvestLog == [GotchiHarvestOwner(ownerId, 0)]
  {
    Gotchi(ah, archetypes[ah].name, [GotchiHarvestOwner(ownerId, 0)])
  }

  /** `Seed::new`: a seed whose pedigree is its owner alone, at generation 0. */
  function NewSeed(ah: nat, ownerId: string): (s: Seed)
    ensures s.archetypeHandle == ah
    ensures s.pedigree == [SeedGrower(ownerId, 0)]
  {
    Seed(ah, [SeedGrower(ownerId, 0)])
  }

  /**
   * `PossessionKind::new`: the kind the archetype at `ah` calls for; an
   * unknown handle panics, so the handle must be in range.
   */
  function NewKind(archetypes: seq<Archetype>, ah: nat, ownerId: string): (k: PossessionKind)
    requires ah < |archetypes|
    ensures k.GotchiPossession? <==> archetypes[ah].kind.GotchiKind?
    ensures k.SeedPossession? <==> archetypes[ah].kind.SeedKind?
    ensures k.KeepsakePossession? <==> archetypes[ah].kind.KeepsakeKind?
    ensures k.GotchiPossession? ==>
      (k.gotchi.archetypeHandle == ah && k.gotchi.nickname == archetypes[ah].name
      && k.gotchi.harvestLog == [GotchiHarvestOwner(ownerId, 0)])
    ensures k.SeedPossession? ==> k.seed.archetypeHandle == ah && k.seed.pedigree == [SeedGrower(ownerId, 0)]
    ensures k.KeepsakePossession? ==> k.keepsake == Keepsake(ah, ownerId)
  {
    match archetypes[ah].kind
    case GotchiKind => GotchiPossession(NewGotchi(archetypes, ah, ownerId))
    case SeedKind(_) => SeedPossession(NewSeed(ah, ownerId))
    case KeepsakeKind => KeepsakePossession(Keepsake(ah, ownerId))
  }

  /** `as_gotchi` (and `gotchi`, `gotchi_mut`, which designate the same value). */
  function AsGotchi(k: PossessionKind): Option<Gotchi>
  {
    match k
    case GotchiPossession(g) => Some(g)
    case _ => None
  }

  /** `as_seed` (and `seed`, `seed_mut`). */
  function AsSeed(k: PossessionKind): Option<Seed>
  {
    match k
    case SeedPossession(s) => Some(s)
    case _ => None
  }

  /** `as_keepsake` (and `keepsake`, `keepsake_mut`). */
  function AsKeepsake(k: PossessionKind): Option<Keepsake>
  {
    match k
    case KeepsakePossession(s) => Some(s)
    case _ => None
  }

  predicate IsGotchi(k: PossessionKind) { match k case GotchiPossession(_) => true case _ => false }
  predicate IsSeed(k: PossessionKind) { match k case SeedPossession(_) => true case _ => false }
  predicate IsKeepsake(k: PossessionKind) { match k case KeepsakePossession(_) => true case _ => false }

  /**
   * The `is_` tests agree with the `as_` accessors, exactly one of them holds,
   * and each accessor gives back what the variant was built from.
   */
  lemma AccessorsAgree(k: PossessionKind)
    ensures IsGotchi(k) <==> AsGotchi(k).Some?
    ensures IsSeed(k) <==> AsSeed(k).Some?
    ensures IsKeepsake(k) <==> AsKeepsake(k).Some?
    ensures IsGotchi(k) || IsSeed(k) || IsKeepsake(k)
    ensures !(IsGotchi(k) && IsSeed(k)) && !(IsGotchi(k) && IsKeepsake(k)) && !(IsSeed(k) && IsKeepsake(k))
    ensures AsGotchi(k).Some? ==> k == GotchiPossession(AsGotchi(k).value)
    ensures AsSeed(k).Some? ==> k == SeedPossession(AsSeed(k).value)
    ensures AsKeepsake(k).Some? ==> k == KeepsakePossession(AsKeepsake(k).value)
  {
  }

  /**
   * `Possessable`, as a pair of conversions: `from` recovers a `P` from a
   * kind, `into` wraps one. The law says they are inverse to each other.
   */
  ghost predicate PossessableLaw<P(!new)>(from: PossessionKind -> Option<P>, into: P -> PossessionKind)
  {
    && (forall p: P :: from(into(p)) == Some(p))
    && (forall k: PossessionKind :: from(k).Some? ==> into(from(k).value) == k)
  }

  function GotchiFrom(): (f: PossessionKind -> Option<Gotchi>)
    ensures forall k :: f(k) == AsGotchi(k)
  {
    k => AsGotchi(k)
  }

  function GotchiInto(): (f: Gotchi -> PossessionKind)
    ensures forall g :: f(g) == GotchiPossession(g)
  {
    g => GotchiPossession(g)
  }

  function SeedFrom(): (f: PossessionKind -> Option<Seed>)
    ensures forall k :: f(k) == AsSeed(k)
  {
    k => AsSeed(k)
  }

  function SeedInto(): (f: Seed -> PossessionKind)
    ensures forall s :: f(s) == SeedPossession(s)
  {
    s => SeedPossession(s)
  }

  /** `impl Possessable for Gotchi` keeps the law. */
  lemma GotchiPossessable()
    ensures PossessableLaw(GotchiFrom(), GotchiInto())
  {
    forall k | GotchiFrom()(k).Some? ensures GotchiInto()(GotchiFrom()(k).value) == k {
      AccessorsAgree(k);
    }
  }

  /** `impl Possessable for Seed` keeps the law. */
  lemma SeedPossessable()
    ensures PossessableLaw(SeedFrom(), SeedInto())
  {
    forall k | SeedFrom()(k).Some? ensures SeedInto()(SeedFrom()(k).value) == k {
      AccessorsAgree(k);
    }
  }

  /** `Acquisition`: how an owner came by a possession; a purchase carries its price. */
  datatype Acquisition = Trade | Purchase(price: nat) | Farmed | Crafted | Hatched

  /** `Acquisition::spawned`: a spawned possession counts as traded. */
  function Spawned(): (a: Acquisition)
    ensures a.Trade?
  {
    Trade
  }

  /** `Display for Acquisition`. */
  function Display(a: Acquisition): string
  {
    match a
    case Trade => "Trade"
    case Farmed => "Farmed"
    case Crafted => "Crafted"
    case Hatched => "Hatched"
    case Purchase(price) => "Purchase(" + NatToString(price) + "gp)"
  }

  /** Only a purchase displays with a leading `P`. */
  lemma DisplayInitial(a: Acquisition)
    ensures |Display(a)| > 0 && (Display(a)[0] == 'P' <==> a.Purchase?)
  {
  }

  /** Different acquisitions, prices included, display differently. */
  lemma DisplayInjective(a: Acquisition, b: Acquisition)
    requires Display(a) == Display(b)
    ensures a == b
  {
    DisplayInitial(a);
    DisplayInitial(b);
    if a.Purchase? {
      var sa, sb := NatToString(a.price), NatToString(b.price);
      assert |sa| == |sb|;
      assert Display(a)[9..9 + |sa|] == sa;
      assert Display(b)[9..9 + |sb|] == sb;
      NatToStringInjective(a.price, b.price);
    }
  }

  /** `Owner`: an owner's id and how they acquired the possession. */
  datatype Owner = Owner(id: string, acquisition: Acquisition)

  function Farmer(id: string): (o: Owner)
    ensures o.id == id && o.acquisition == Farmed
  {
    Owner(id, Farmed)
  }

  function Crafter(id: string): (o: Owner)
    ensures o.id == id && o.acquisition == Crafted
  {
    Owner(id, Crafted)
  }

  function Hatcher(id: string): (o: Owner)
    ensures o.id == id && o.acquisition == Hatched
  {
    Owner(id, Hatched)
  }

  /** `market::Sale`: the asking price and the name the possession is sold under. */
  datatype Sale = Sale(price: nat, marketName: string)

  datatype Possession = Possession(
    kind: PossessionKind,
    archetypeHandle: nat,
    id: Uuid,
    steader: string,
    ownershipLog: seq<Owner>,
    sale: Option<Sale>)

  /** `Possessed<P>`: a possession whose kind is known to be a `P`. */
  datatype Possessed<P> = Possessed(
    inner: P,
    archetypeHandle: nat,
    id: Uuid,
    steader: string,
    ownershipLog: seq<Owner>,
    sale: Option<Sale>)

  /**
   * `Possessed::from_possession`: the typed possession when the kind is a `P`,
   * every other field carried over; `None` otherwise.
   */
  function FromPossession<P>(from: PossessionKind -> Option<P>, p: Possession): (r: Option<Possessed<P>>)
    ensures r.Some? <==> from(p.kind).Some?
    ensures r.Some? ==>
      (r.value.inner == from(p.kind).value
      && r.value.archetypeHandle == p.archetypeHandle && r.value.id == p.id && r.value.steader == p.steader
      && r.value.ownershipLog == p.ownershipLog && r.value.sale == p.sale)
  {
    match from(p.kind)
    case None => None
    case Some(inner) => Some(Possessed(inner, p.archetypeHandle, p.id, p.steader, p.ownershipLog, p.sale))
  }

  /** `Possessed::into_possession`: every field carried over, the kind wrapped back. */
  function IntoPossession<P>(into: P -> PossessionKind, t: Possessed<P>): (p: Possession)
    ensures p.kind == into(t.inner)
    ensures p.archetypeHandle == t.archetypeHandle && p.id == t.id && p.steader == t.steader
      && p.ownershipLog == t.ownershipLog && p.sale == t.sale
  {
    Possession(into(t.inner), t.archetypeHandle, t.id, t.steader, t.ownershipLog, t.sale)
  }

  /** `TryFrom<Possession> for Possessed<P>`. */
  function TryFromPossession<P>(from: PossessionKind -> Option<P>, p: Possession): (r: Result<Possessed<P>, string>)
    ensures r.Ok? <==> FromPossession(from, p).Some?
    ensures r.Ok? ==> Some(r.value) == FromPossession(from, p)
    ensures r.Err? ==> r.error == "wrongly typed possession"
  {
    match FromPossession(from, p)
    case None => Err("wrongly typed possession")
    case Some(t) => Ok(t)
  }

  /** Typing a possession that was untyped from a typed one gives it back. */
  lemma FromIntoRoundTrip<P(!new)>(from: PossessionKind -> Option<P>, into: P -> PossessionKind, t: Possessed<P>)
    requires PossessableLaw(from, into)
    ensures FromPossession(from, IntoPossession(into, t)) == Some(t)
  {
  }

  /** A possession that could be typed is recovered by untyping the typed one. */
  lemma IntoFromRoundTrip<P(!new)>(from: PossessionKind -> Option<P>, into: P -> PossessionKind, p: Possession)
    requires PossessableLaw(from, into)
    requires FromPossession(from, p).Some?
    ensures IntoPossession(into, FromPossession(from, p).value) == p
  {
  }

  /**
   * `Possession::new`: a possession of the archetype at `ah` (which must
   * exist), with id `id` (the fresh identifier the source draws), whose
   * steader is the owner and whose log is that owner alone, not for sale.
   */
  function NewPossession(archetypes: seq<Archetype>, ah: nat, owner: Owner, id: Uuid): (p: Possession)
    requires ah < |archetypes|
    ensures p.archetypeHandle == ah && p.id == id
    ensures p.steader == owner.id && p.ownershipLog == [owner] && p.sale.None?
    ensures p.kind == NewKind(archetypes, ah, owner.id)
  {
    Possession(NewKind(archetypes, ah, owner.id), ah, id, owner.id, [owner], None)
  }

  /** `Possession::archetype` and `Deref`: a handle out of range panics. */
  function ArchetypeOf(archetypes: seq<Archetype>, p: Possession): (a: Archetype)
    requires p.archetypeHandle < |archetypes|
    ensures ArchetypeAt(archetypes, p.archetypeHandle) == Ok(a)
  {
    archetypes[p.archetypeHandle]
  }

  /** `Possession::nickname`: a gotchi's nickname, else the archetype's name. */
  function Nickname(archetypes: seq<Archetype>, p: Possession): (n: string)
    requires p.kind.GotchiPossession? || p.archetypeHandle < |archetypes|
    ensures p.kind.GotchiPossession? ==> n == p.kind.gotchi.nickname
    ensures !p.kind.GotchiPossession? ==> n == archetypes[p.archetypeHandle].name
  {
    match p.kind
    case GotchiPossession(g) => g.nickname
    case _ => ArchetypeOf(archetypes, p).name
  }

  /** A new possession is nicknamed after its archetype, whatever its kind. */
  lemma NewNickname(archetypes: seq<Archetype>, ah: nat, owner: Owner, id: Uuid)
    requires ah < |archetypes|
    ensures Nickname(archetypes, NewPossession(archetypes, ah, owner, id)) == archetypes[ah].name
  {
  }

  /** A new possession of a gotchi archetype can be typed as a gotchi, and of a seed archetype as a seed. */
  lemma NewTypes(archetypes: seq<Archetype>, ah: nat, owner: Owner, id: Uuid)
    requires ah < |archetypes|
    ensures var p := NewPossession(archetypes, ah, owner, id);
      && (TryFromPossession(GotchiFrom(), p).Ok? <==> archetypes[ah].kind.GotchiKind?)
      && (TryFromPossession(SeedFrom(), p).Ok? <==> archetypes[ah].kind.SeedKind?)
  {
  }

  /** `Deref for Seed`: the seed part of its archetype; a handle out of range or of another kind panics. */
  function SeedArchetypeOf(archetypes: seq<Archetype>, s: Seed): (sa: SeedArchetype)
    requires s.archetypeHandle < |archetypes| && archetypes[s.archetypeHandle].kind.SeedKind?
    ensures archetypes[s.archetypeHandle].kind == SeedKind(sa)
  {
    archetypes[s.archetypeHandle].kind.seed
  }

  /** `SeedGrower::new`. */
  function NewSeedGrower(id: string, generations: nat): (g: SeedGrower)
    ensures g.id == id && g.generations == generations
  {
    SeedGrower(id, generations)
  }
}
