/** The self-healing rule for platforms: before every broadcast, any
    rectangle whose four fields are all zero counts as corrupted and is
    reset to the ground rectangle. */
module Platforms {
  import opened Model

  /** All four fields are zero. */
  predicate IsZero(p: Platform) {
    p.x == 0.0 && p.y == 0.0 && p.width == 0.0 && p.height == 0.0
  }

  /** The ground rectangle: the full screen width, 50 units high, resting on
      the bottom edge of the screen. */
  function Ground(): (g: Platform)
    ensures !IsZero(g)
    ensures g.x == 0.0 && g.width == ScreenWidth as real
    ensures g.y + g.height == ScreenHeight as real && g.height > 0.0
  {
    Platform(0.0, (ScreenHeight - 50) as real, ScreenWidth as real, 50.0)
  }

  /** No rectangle in the sequence is all-zero. */
  predicate Healthy(ps: seq<Platform>) {
    forall i :: 0 <= i < |ps| ==> !IsZero(ps[i])
  }

  /** `r` is `ps` with exactly the all-zero rectangles replaced by ground and
      every other rectangle kept in place. */
  predicate HealedFrom(ps: seq<Platform>, r: seq<Platform>) {
    && |r| == |ps|
    && (forall i :: 0 <= i < |ps| && IsZero(ps[i]) ==> r[i] == Ground())
    && (forall i :: 0 <= i < |ps| && !IsZero(ps[i]) ==> r[i] == ps[i])
  }

  function HealOne(p: Platform): Platform {
    if IsZero(p) then Ground() else p
  }

  /** The heal pass as a function over the platform sequence. */
  function HealPlatforms(ps: seq<Platform>): (r: seq<Platform>)
    ensures HealedFrom(ps, r)
    ensures Healthy(r)
  {
    if |ps| == 0 then [] else [HealOne(ps[0])] + HealPlatforms(ps[1..])
  }

  /** The heal pass as the server writes it: one in-place assignment per
      all-zero index, in index order. */
  method HealInPlace(ps: seq<Platform>) returns (r: seq<Platform>)
    ensures r == HealPlatforms(ps)
  {
    r := ps;
    var i := 0;
    while i < |r|
      invariant 0 <= i <= |r| == |ps|
      invariant forall j :: 0 <= j < i ==> r[j] == HealOne(ps[j])
      invariant forall j :: i <= j < |r| ==> r[j] == ps[j]
    {
      if IsZero(r[i]) {
        r := r[i := Ground()];
      }
      i := i + 1;
    }
    var h := HealPlatforms(ps);
    assert forall j :: 0 <= j < |r| ==> r[j] == h[j];
  }

  /** Healing is the identity on a sequence with no all-zero rectangle. */
  lemma HealHealthyIsIdentity(ps: seq<Platform>)
    requires Healthy(ps)
    ensures HealPlatforms(ps) == ps
  {
  }

  /** Healing twice is the same as healing once. */
  lemma HealIdempotent(ps: seq<Platform>)
    ensures HealPlatforms(HealPlatforms(ps)) == HealPlatforms(ps)
  {
    HealHealthyIsIdentity(HealPlatforms(ps));
  }

  /** The result of healing is unique: any sequence related to `ps` by the
      healing rule is the one HealPlatforms computes. */
  lemma HealedFromDeterminesResult(ps: seq<Platform>, r: seq<Platform>)
    requires HealedFrom(ps, r)
    ensures r == HealPlatforms(ps)
  {
    var h := HealPlatforms(ps);
    assert forall j :: 0 <= j < |r| ==> r[j] == h[j];
  }
}
