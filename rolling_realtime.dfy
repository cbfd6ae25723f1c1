/**
 * The live donation screen (src/pages/RollingRealtime/RollingRealtime.tsx):
 * every five seconds a simulated donation enters the feed and the running
 * totals, and every 800 ms a celebration particle is added.
 *
 * The random choices of a tick and the clock are inputs; the intervals
 * themselves are the tick methods.
 */
module RollingRealtime {
  import opened Wrappers
  import opened Types
  import opened Seqs
  import opened JsText
  import MockData

  const InitialTotalRaised := 185000
  const InitialDonorCount := 89
  const Goal := 500000

  /** How many donations the feed shows, and how many particles survive a particle tick before the new one. */
  const FeedLength := 10
  const ParticleHistory := 20

  const DonorNames: seq<string> := ["Emma Johnson", "Liam Smith", "Olivia Williams", "Noah Brown", "Ava Davis"]
  const Amounts: seq<int> := [50, 100, 250, 500, 1000]
  const States: seq<string> := ["CA", "NY", "TX", "FL", "WA"]

  /**
   * The simulated donation: `namePick`, `amountPick` and `statePick` are the
   * `Math.floor(Math.random() * 5)` draws and `donorPick` the draw out of 10.
   */
  function RandomDonation(nowMs: int, donorPick: nat, namePick: nat, amountPick: nat, statePick: nat, timestamp: string)
    : (d: Donation)
    requires donorPick < 10 && namePick < |DonorNames| && amountPick < |Amounts| && statePick < |States|
    ensures d.id == "don" + IntToString(nowMs) && d.donorId == "d" + IntToString(donorPick)
    ensures d.donorName in DonorNames && d.amount in Amounts && d.state in States
    ensures 50 <= d.amount <= 1000
    ensures d.campaignId == "c3" && d.campaignName == "Capital Campaign"
  {
    Donation("don" + IntToString(nowMs), "d" + IntToString(donorPick), DonorNames[namePick], Amounts[amountPick],
             "c3", "Capital Campaign", timestamp, States[statePick])
  }

  /** `[d, ...feed.slice(0, 9)]`: the new donation first, then at most nine earlier ones in order. */
  function FeedAfter(feed: seq<Donation>, d: Donation): (next: seq<Donation>)
    ensures |next| == if |feed| + 1 < FeedLength then |feed| + 1 else FeedLength
    ensures next[0] == d
    ensures next[1..] == feed[..|next| - 1]
  {
    var kept := if |feed| < FeedLength - 1 then |feed| else FeedLength - 1;
    [d] + feed[..kept]
  }

  /** A donation shown in the feed is the new one or was already in the feed. */
  lemma FeedOnlyShifts(feed: seq<Donation>, d: Donation)
    ensures forall x :: x in FeedAfter(feed, d) ==> x == d || x in feed
  {
    var next := FeedAfter(feed, d);
    forall x | x in next
      ensures x == d || x in feed
    {
      var i :| 0 <= i < |next| && next[i] == x;
      if i > 0 {
        assert next[i] == next[1..][i - 1] == feed[i - 1];
      }
    }
  }

  datatype Particle = Particle(id: int, x: real, y: int, emoji: string)

  /** The height every particle is created at; nothing in the page's state moves it afterwards. */
  const StartHeight := -50

  const Emojis: seq<string> := [
    "\U{1F4B0}", "\U{1F389}", "\U{2B50}", "\U{1F4AB}", "\U{1F525}", "\U{2764}\U{FE0F}", "\U{1F680}", "\U{1F48E}"
  ]

  /**
   * `generateParticle`: the clock reading as id, a horizontal position drawn
   * by the caller, the start height and emoji number `emojiPick`.
   */
  function NewParticle(nowMs: int, x: real, emojiPick: nat): (p: Particle)
    requires emojiPick < |Emojis|
    ensures p.id == nowMs && p.x == x && p.y == StartHeight && p.emoji in Emojis
  {
    Particle(nowMs, x, StartHeight, Emojis[emojiPick])
  }

  /** `[...particles.slice(-20), p]`: the last twenty particles (all, when fewer) and the new one at the end. */
  function ParticlesAfter(particles: seq<Particle>, p: Particle): (next: seq<Particle>)
    ensures |next| == if |particles| < ParticleHistory then |particles| + 1 else ParticleHistory + 1
    ensures next[|next| - 1] == p
    ensures IsSuffix(next[..|next| - 1], particles)
  {
    var start := if |particles| > ParticleHistory then |particles| - ParticleHistory else 0;
    var kept := particles[start..];
    assert IsSuffix(kept, particles);
    assert (kept + [p])[..|kept|] == kept;
    kept + [p]
  }

  /** Every particle after the tick is the new one or one from before. */
  lemma ParticlesAfterKeeps(particles: seq<Particle>, p: Particle)
    ensures forall q :: q in ParticlesAfter(particles, p) ==> q == p || q in particles
  {
    var next := ParticlesAfter(particles, p);
    forall q | q in next
      ensures q == p || q in particles
    {
      var i :| 0 <= i < |next| && next[i] == q;
      if i < |next| - 1 {
        var k := |particles| - (|next| - 1);
        assert next[..|next| - 1] == particles[k..];
        assert q == particles[k..][i] == particles[k + i];
      }
    }
  }

  /** `s` ends with `t`. */
  predicate IsSuffix<T(==)>(t: seq<T>, s: seq<T>) {
    |t| <= |s| && s[|s| - |t|..] == t
  }

  predicate OnScreen(innerHeight: int, p: Particle) { p.y < innerHeight }

  function OnScreenIn(innerHeight: int): Particle -> bool {
    p => OnScreen(innerHeight, p)
  }

  /**
   * Particles all at the start height survive the sweep of any window taller
   * than that height: the sweep removes nothing.
   */
  lemma SweepKeepsFreshParticles(particles: seq<Particle>, innerHeight: int)
    requires forall p :: p in particles ==> p.y == StartHeight
    requires innerHeight > StartHeight
    ensures Filter(particles, OnScreenIn(innerHeight)) == particles
  {
    FilterKeepsAll(particles, OnScreenIn(innerHeight));
  }

  datatype Stats = Stats(totalRaised: int, donors: int, avgDonation: real, goal: int)

  class LiveBoard {
    var donations: seq<Donation>
    var totalRaised: int
    var donorCount: int
    var particles: seq<Particle>
    var recentHighlight: Option<string>

    /**
     * The feed never holds more than ten donations, the particles never more
     * than twenty-one, and the totals never fall below their starting values,
     * so the average is never a division by zero.
     */
    predicate Valid()
      reads this
    {
      |donations| <= FeedLength && |particles| <= ParticleHistory + 1
      && (forall p :: p in particles ==> p.y == StartHeight)
      && totalRaised >= InitialTotalRaised && donorCount >= InitialDonorCount
    }

    constructor ()
      ensures Valid()
      ensures donations == MockData.RecentDonations && totalRaised == InitialTotalRaised
      ensures donorCount == InitialDonorCount && particles == [] && recentHighlight == None
    {
      donations := MockData.RecentDonations;
      totalRaised := InitialTotalRaised;
      donorCount := InitialDonorCount;
      particles := [];
      recentHighlight := None;
    }

    /** The five-second donation tick. */
    method DonationTick(nowMs: int, donorPick: nat, namePick: nat, amountPick: nat, statePick: nat, timestamp: string)
      requires Valid()
      requires donorPick < 10 && namePick < |DonorNames| && amountPick < |Amounts| && statePick < |States|
      modifies this
      ensures Valid()
      ensures var d := RandomDonation(nowMs, donorPick, namePick, amountPick, statePick, timestamp);
        donations == FeedAfter(old(donations), d)
        && totalRaised == old(totalRaised) + d.amount
        && donorCount == old(donorCount) + 1
        && recentHighlight == Some(d.donorName)
      ensures particles == old(particles)
    {
      var d := RandomDonation(nowMs, donorPick, namePick, amountPick, statePick, timestamp);
      donations := FeedAfter(donations, d);
      totalRaised := totalRaised + d.amount;
      donorCount := donorCount + 1;
      recentHighlight := Some(d.donorName);
    }

    /** Two seconds after a donation the highlight goes away. */
    method ClearHighlight()
      requires Valid()
      modifies this
      ensures Valid()
      ensures recentHighlight == None
      ensures donations == old(donations) && totalRaised == old(totalRaised) && donorCount == old(donorCount)
      ensures particles == old(particles)
    {
      recentHighlight := None;
    }

    /** The 800 ms particle tick: `x` and `emojiPick` are its random draws. */
    method ParticleTick(nowMs: int, x: real, emojiPick: nat)
      requires Valid()
      requires emojiPick < |Emojis|
      modifies this
      ensures Valid()
      ensures particles == ParticlesAfter(old(particles), NewParticle(nowMs, x, emojiPick))
      ensures donations == old(donations) && totalRaised == old(totalRaised) && donorCount == old(donorCount)
      ensures recentHighlight == old(recentHighlight)
    {
      var p := NewParticle(nowMs, x, emojiPick);
      ParticlesAfterKeeps(particles, p);
      particles := ParticlesAfter(particles, p);
    }

    /**
     * The 100 ms sweep drops the particles below the bottom of the window;
     * since no particle ever leaves the start height, in any window taller
     * than that it drops none.
     */
    method SweepParticles(innerHeight: int)
      requires Valid()
      modifies this
      ensures Valid()
      ensures particles == Filter(old(particles), OnScreenIn(innerHeight))
      ensures innerHeight > StartHeight ==> particles == old(particles)
      ensures donations == old(donations) && totalRaised == old(totalRaised) && donorCount == old(donorCount)
      ensures recentHighlight == old(recentHighlight)
    {
      if innerHeight > StartHeight {
        SweepKeepsFreshParticles(particles, innerHeight);
      }
      particles := Filter(particles, OnScreenIn(innerHeight));
    }

    /** `stats`: the average is the total over the donor count, which the invariant keeps positive. */
    function CurrentStats(): (s: Stats)
      requires Valid()
      reads this
      ensures s.totalRaised == totalRaised && s.donors == donorCount && s.goal == Goal
      ensures s.avgDonation * donorCount as real == totalRaised as real
      ensures s.avgDonation > 0.0
    {
      Stats(totalRaised, donorCount, totalRaised as real / donorCount as real, Goal)
    }
  }
}
