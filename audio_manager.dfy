/** The audio manager: the single instance that restores the two mute flags
    saved in the player preferences, sets the mixer's "SFX" and "Music"
    levels from them, owns a pool of sound-effect sources that it uses in
    turn, and toggles and saves the mute flags. */
module Audio {
  import opened Optional

  /** The player preferences as integers by key; a missing key is a value
      never saved. */
  type Prefs = map<string, int>

  /** The exposed mixer levels in decibels, by parameter name. */
  type Levels = map<string, real>

  const SfxParam: string := "SFX"
  const MusicParam: string := "Music"
  const SfxKey: string := "SFXMuted"
  const MusicKey: string := "MusicMuted"
  /** The level a muted group is set to, and the level of an unmuted one. */
  const MutedLevel: real := -80.0
  const OpenLevel: real := 0.0

  /** One pooled sound-effect source: its current clip, its volume, and how
      many times it has been started. */
  datatype Source = Source(clip: Option<string>, volume: real, plays: nat)

  /** A source as it is created: no clip, full volume, never played. */
  const FreshSource: Source := Source(None, 1.0, 0)

  /** `n` freshly created sources. */
  function FreshSources(n: nat): (r: seq<Source>)
    ensures |r| == n && forall k :: 0 <= k < n ==> r[k] == FreshSource
  {
    if n == 0 then [] else FreshSources(n - 1) + [FreshSource]
  }

  /** What `PlaySFX` did: nothing (muted or no clip), started the source at
      `index`, or threw because the pool is empty. */
  datatype PlayOutcome = Skipped | Played(index: nat) | EmptyPool

  /** The mixer level for a mute flag. */
  function MuteLevel(mute: bool): (r: real)
    ensures r == MutedLevel <==> mute
    ensures r == OpenLevel <==> !mute
  {
    if mute then MutedLevel else OpenLevel
  }

  /** The integer a mute flag is saved as. */
  function FlagValue(muted: bool): (r: int)
    ensures r == 0 || r == 1
    ensures r == 1 <==> muted
  {
    if muted then 1 else 0
  }

  /** The mute flag read back from the preferences: muted exactly when the
      saved value is 1; a key never saved reads as 0. */
  function StoredMute(prefs: Prefs, key: string): (muted: bool)
    ensures key !in prefs ==> !muted
    ensures key in prefs ==> (muted <==> prefs[key] == 1)
  {
    (if key in prefs then prefs[key] else 0) == 1
  }

  /** The levels after setting `param` for `mute`: unchanged without a
      mixer. */
  function SetLevel(levels: Levels, hasMixer: bool, param: string, mute: bool): (r: Levels)
    ensures !hasMixer ==> r == levels
    ensures hasMixer ==> param in r && r[param] == MuteLevel(mute)
    ensures forall p :: p in levels && p != param ==> p in r && r[p] == levels[p]
  {
    if hasMixer then levels[param := MuteLevel(mute)] else levels
  }

  /** The pool index after one play in a pool of `n` sources. */
  function NextIndex(i: int, n: int): (r: int)
    requires 0 <= i < n
    ensures 0 <= r < n
    ensures r == if i + 1 < n then i + 1 else 0
  {
    (i + 1) % n
  }

  /** The pool index after `k` plays from `i`. */
  function Advanced(i: int, n: int, k: nat): (r: int)
    requires 0 <= i < n
    ensures 0 <= r < n
  {
    if k == 0 then i else NextIndex(Advanced(i, n, k - 1), n)
  }

  /** A saved flag reads back as the flag: what a toggle saves is what the
      next start restores. */
  lemma FlagRoundTrip(prefs: Prefs, key: string, muted: bool)
    ensures StoredMute(prefs[key := FlagValue(muted)], key) == muted
  {
  }

  /** Saving one flag does not change how the other reads back. */
  lemma FlagsIndependent(prefs: Prefs, muted: bool)
    ensures StoredMute(prefs[SfxKey := FlagValue(muted)], MusicKey) == StoredMute(prefs, MusicKey)
    ensures StoredMute(prefs[MusicKey := FlagValue(muted)], SfxKey) == StoredMute(prefs, SfxKey)
  {
  }

  /** Short of the end of the pool, `k` plays move the index `k` places. */
  lemma {:induction false} AdvanceWithin(i: int, n: int, k: nat)
    requires 0 <= i && i + k < n
    ensures Advanced(i, n, k) == i + k
  {
    if k > 0 {
      AdvanceWithin(i, n, k - 1);
    }
  }

  /** Plays in two runs move the index as far as the same plays in one. */
  lemma {:induction false} AdvanceSplit(i: int, n: int, a: nat, b: nat)
    requires 0 <= i < n
    ensures Advanced(i, n, a + b) == Advanced(Advanced(i, n, a), n, b)
  {
    if b > 0 {
      AdvanceSplit(i, n, a, b - 1);
    }
  }

  /** From `i`, the plays up to the end of the pool bring the index to 0,
      and `m` more bring it to `m`. */
  lemma WrapAround(i: int, n: int, m: nat)
    requires 0 <= i < n && m < n
    ensures Advanced(i, n, n - i + m) == m
  {
    AdvanceWithin(i, n, n - 1 - i);
    assert Advanced(i, n, n - i) == 0;
    AdvanceSplit(i, n, n - i, m);
    AdvanceWithin(0, n, m);
  }

  /** The sources are used in turn: after as many plays as there are
      sources the index is back where it started. */
  lemma FullCycle(i: int, n: int)
    requires 0 <= i < n
    ensures Advanced(i, n, n) == i
  {
    WrapAround(i, n, i);
  }

  /** No source is used twice within fewer plays than there are sources. */
  lemma NoEarlyReuse(i: int, n: int, k: nat)
    requires 0 <= i < n && 0 < k < n
    ensures Advanced(i, n, k) != i
  {
    if i + k < n {
      AdvanceWithin(i, n, k);
    } else {
      WrapAround(i, n, k - (n - i));
    }
  }

  /** Toggling a channel twice restores its flag and its mixer level, and
      leaves the saved value reading back as the original flag. */
  lemma ToggleTwice(muted: bool, prefs: Prefs, levels: Levels, hasMixer: bool, key: string, param: string)
    ensures var once := !muted;
            var twice := !once;
            var prefs2 := prefs[key := FlagValue(once)][key := FlagValue(twice)];
            && twice == muted
            && prefs2 == prefs[key := FlagValue(muted)]
            && StoredMute(prefs2, key) == muted
            && SetLevel(SetLevel(levels, hasMixer, param, once), hasMixer, param, twice)
               == SetLevel(levels, hasMixer, param, muted)
  {
  }

  /** The static `AudioManager.Instance`. */
  class Slot {
    var instance: AudioManager?

    constructor ()
      ensures instance == null
    {
      instance := null;
    }
  }

  class AudioManager {
    /** Whether a mixer is assigned, and whether it has a group matching
        "SFX". */
    const hasMixer: bool
    const mixerHasSfxGroup: bool
    const poolSize: int

    /** The mixer's exposed levels and the player preferences. */
    var levels: Levels
    var prefs: Prefs
    var sfxPool: seq<Source>
    var poolIndex: int
    var isSFXMuted: bool
    var isMusicMuted: bool
    var destroyed: bool

    /** The index is always a place in the pool, or 0 while it is empty. */
    ghost predicate Valid()
      reads this
    {
      0 <= poolIndex && (poolIndex == 0 || poolIndex < |sfxPool|)
    }

    constructor (mixer: bool, sfxGroup: bool, size: int, mixerLevels: Levels, savedPrefs: Prefs)
      ensures Valid()
      ensures hasMixer == mixer && mixerHasSfxGroup == sfxGroup && poolSize == size
      ensures levels == mixerLevels && prefs == savedPrefs
      ensures sfxPool == [] && poolIndex == 0 && !isSFXMuted && !isMusicMuted && !destroyed
    {
      hasMixer, mixerHasSfxGroup, poolSize := mixer, sfxGroup, size;
      levels, prefs := mixerLevels, savedPrefs;
      sfxPool, poolIndex := [], 0;
      isSFXMuted, isMusicMuted, destroyed := false, false, false;
    }

    /** A later manager destroys itself and leaves the instance alone.
        Otherwise this one becomes the instance, restores both flags from
        the preferences, sets both mixer levels and builds the pool;
        `poolBuilt` is false when building it threw. */
    method Awake(slot: Slot) returns (poolBuilt: bool)
      requires Valid()
      modifies slot, this
      ensures Valid()
      ensures old(slot.instance) != null && old(slot.instance) != this ==>
        slot.instance == old(slot.instance) && destroyed && !poolBuilt
        && levels == old(levels) && prefs == old(prefs) && sfxPool == old(sfxPool)
        && isSFXMuted == old(isSFXMuted) && isMusicMuted == old(isMusicMuted) && poolIndex == old(poolIndex)
      ensures !(old(slot.instance) != null && old(slot.instance) != this) ==>
        slot.instance == this && destroyed == old(destroyed) && prefs == old(prefs)
        && isSFXMuted == StoredMute(old(prefs), SfxKey)
        && isMusicMuted == StoredMute(old(prefs), MusicKey)
        && levels == SetLevel(SetLevel(old(levels), hasMixer, SfxParam, isSFXMuted), hasMixer, MusicParam, isMusicMuted)
        && (poolBuilt <==> poolSize <= 0 || (hasMixer && mixerHasSfxGroup))
        && (poolBuilt ==> sfxPool == old(sfxPool) + FreshSources(if poolSize < 0 then 0 else poolSize))
        && (!poolBuilt ==> sfxPool == old(sfxPool))
        && poolIndex == old(poolIndex)
    {
      if slot.instance != null && slot.instance != this {
        destroyed := true;
        poolBuilt := false;
        return;
      }
      slot.instance := this;
      isSFXMuted := StoredMute(prefs, SfxKey);
      isMusicMuted := StoredMute(prefs, MusicKey);
      SetVolume(SfxParam, isSFXMuted);
      SetVolume(MusicParam, isMusicMuted);
      poolBuilt := InitSFXPool();
    }

    /** Appends `poolSize` fresh sources routed to the "SFX" group. Without
        a mixer, or without such a group, the first iteration throws and
        nothing is appended. */
    method InitSFXPool() returns (ok: bool)
      requires Valid()
      modifies this`sfxPool
      ensures Valid()
      ensures ok <==> poolSize <= 0 || (hasMixer && mixerHasSfxGroup)
      ensures ok ==> sfxPool == old(sfxPool) + FreshSources(if poolSize < 0 then 0 else poolSize)
      ensures !ok ==> sfxPool == old(sfxPool)
    {
      var i := 0;
      while i < poolSize
        invariant 0 <= i && (poolSize >= 0 ==> i <= poolSize) && (poolSize < 0 ==> i == 0)
        invariant i > 0 ==> hasMixer && mixerHasSfxGroup
        invariant sfxPool == old(sfxPool) + FreshSources(i)
        invariant Valid()
      {
        if !hasMixer || !mixerHasSfxGroup {
          return false;
        }
        sfxPool := sfxPool + [FreshSource];
        i := i + 1;
      }
      return true;
    }

    /** Starts `clip` at `volume` on the source at the pool index and moves
        the index on to the next source. Muted, or with no clip, nothing
        changes; with an empty pool the index access throws and nothing
        changes. */
    method PlaySFX(clip: Option<string>, volume: real := 0.5) returns (outcome: PlayOutcome)
      requires Valid()
      modifies this`sfxPool, this`poolIndex
      ensures Valid()
      ensures outcome.Skipped? <==> isSFXMuted || clip.None?
      ensures outcome.EmptyPool? <==> !isSFXMuted && clip.Some? && |sfxPool| == 0
      ensures !outcome.Played? ==> sfxPool == old(sfxPool) && poolIndex == old(poolIndex)
      ensures outcome.Played? ==>
        && outcome.index == old(poolIndex) < |sfxPool| == |old(sfxPool)|
        && sfxPool == old(sfxPool)[outcome.index := Source(clip, volume, old(sfxPool)[outcome.index].plays + 1)]
        && poolIndex == NextIndex(old(poolIndex), |sfxPool|)
    {
      if isSFXMuted || clip.None? {
        return Skipped;
      }
      if |sfxPool| == 0 {
        return EmptyPool;
      }
      var source := sfxPool[poolIndex];
      sfxPool := sfxPool[poolIndex := Source(clip, volume, source.plays + 1)];
      outcome := Played(poolIndex);
      poolIndex := NextIndex(poolIndex, |sfxPool|);
    }

    /** Flips the sound-effect mute, saves it as 1 or 0 and sets the level. */
    method ToggleSFX()
      modifies this`isSFXMuted, this`prefs, this`levels
      ensures isSFXMuted == !old(isSFXMuted)
      ensures prefs == old(prefs)[SfxKey := FlagValue(isSFXMuted)]
      ensures levels == SetLevel(old(levels), hasMixer, SfxParam, isSFXMuted)
    {
      isSFXMuted := !isSFXMuted;
      prefs := prefs[SfxKey := FlagValue(isSFXMuted)];
      SetVolume(SfxParam, isSFXMuted);
    }

    /** Flips the music mute, saves it as 1 or 0 and sets the level. */
    method ToggleMusic()
      modifies this`isMusicMuted, this`prefs, this`levels
      ensures isMusicMuted == !old(isMusicMuted)
      ensures prefs == old(prefs)[MusicKey := FlagValue(isMusicMuted)]
      ensures levels == SetLevel(old(levels), hasMixer, MusicParam, isMusicMuted)
    {
      isMusicMuted := !isMusicMuted;
      prefs := prefs[MusicKey := FlagValue(isMusicMuted)];
      SetVolume(MusicParam, isMusicMuted);
    }

    /** Sets the level of `param` to -80 dB when muted and 0 dB otherwise;
        without a mixer nothing happens. */
    method SetVolume(param: string, mute: bool)
      modifies this`levels
      ensures levels == SetLevel(old(levels), hasMixer, param, mute)
    {
      if hasMixer {
        levels := levels[param := MuteLevel(mute)];
      }
    }
  }
}
