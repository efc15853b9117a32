/**
 * The attribute controller (AttributeController.cs): health, lives, the dead
 * flag and the physical attributes an object reads every tick, updated in
 * place by damage, healing, setters and the malady bookkeeping.
 */
module Attributes {
  import opened Wrappers

  /** The source's `int`: 32-bit two's complement, wrapping in the default unchecked context. */
  newtype int32 = x: int | -0x8000_0000 <= x < 0x8000_0000

  const Int32Min: int32 := -0x8000_0000
  const Int32Max: int32 := 0x7fff_ffff

  /** `x - 1` on a 32-bit int: the least value wraps round to the greatest. */
  function WrappingDecrement(x: int32): (r: int32)
    ensures x != Int32Min ==> r as int == x as int - 1
    ensures (r as int - (x as int - 1)) % 0x1_0000_0000 == 0
  {
    if x == Int32Min then Int32Max else x - 1
  }

  /**
   * A malady attached to the object. Its type is not part of this model; only
   * an identity and its `m_IsActive` flag, which its own coroutine clears, are kept.
   */
  datatype Malady = Malady(id: nat, isActive: bool)

  /** The attribute data asset that LoadFromData copies from (the fields it reads). */
  datatype AttributeData = AttributeData(
    lives: int32,
    health: real,
    strength: real,
    speed: real,
    mass: real,
    gravity: real,
    fallingGravity: real,
    gravityScale: real,
    fallingGravityScale: real)

  /**
   * How a resumption of the malady sweep ends: the loop exits on an empty
   * list, carries on with the next cursor, or faults on an element lookup
   * past the end of the list.
   */
  datatype SweepResume = SweepEnded | SweepContinues(cursor: nat) | SweepFaulted

  /** The sweep's list and cursor after one pass of its loop body. */
  datatype Sweep = Sweep(maladies: seq<Malady>, cursor: nat)

  /**
   * One pass of the malady-check loop body at `cursor`: the malady there is
   * removed if it is no longer active, then the cursor moves on, wrapping to 0
   * once it has reached the last index of the (possibly shorter) list.
   */
  function SweepStep(ms: seq<Malady>, cursor: nat): (r: Sweep)
    requires cursor < |ms|
    ensures |r.maladies| > 0 ==> r.cursor < |r.maladies|
    ensures r.cursor == 0 || r.cursor == cursor + 1
  {
    var rest := if !ms[cursor].isActive then ms[..cursor] + ms[cursor + 1..] else ms;
    Sweep(rest, if cursor >= |rest| - 1 then 0 else cursor + 1)
  }

  function ActiveCount(ms: seq<Malady>): nat
    decreases |ms|
  {
    if |ms| == 0 then 0 else ActiveCount(ms[..|ms| - 1]) + (if ms[|ms| - 1].isActive then 1 else 0)
  }

  lemma {:induction false} ActiveCountAppend(a: seq<Malady>, b: seq<Malady>)
    ensures ActiveCount(a + b) == ActiveCount(a) + ActiveCount(b)
    decreases |b|
  {
    if |b| > 0 {
      var k := |b| - 1;
      assert (a + b)[..|a + b| - 1] == a + b[..k];
      ActiveCountAppend(a, b[..k]);
    } else {
      assert a + b == a;
    }
  }

  /**
   * A sweep step removes at most the one malady under the cursor, and only an
   * inactive one: every active malady survives, the others keep their order,
   * and the list shrinks by one exactly when the malady under the cursor was inactive.
   */
  lemma SweepStepRemovesOnlyAnInactiveOne(ms: seq<Malady>, cursor: nat)
    requires cursor < |ms|
    ensures var r := SweepStep(ms, cursor).maladies;
      && ActiveCount(r) == ActiveCount(ms)
      && |r| == |ms| - (if ms[cursor].isActive then 0 else 1)
      && (forall j :: 0 <= j < |r| ==> r[j] == ms[if j < cursor || ms[cursor].isActive then j else j + 1])
  {
    var r := SweepStep(ms, cursor).maladies;
    assert ms == ms[..cursor] + [ms[cursor]] + ms[cursor + 1..];
    ActiveCountAppend(ms[..cursor] + [ms[cursor]], ms[cursor + 1..]);
    ActiveCountAppend(ms[..cursor], [ms[cursor]]);
    assert ActiveCount([ms[cursor]]) == if ms[cursor].isActive then 1 else 0 by {
      assert [ms[cursor]][..0] == [];
    }
    if !ms[cursor].isActive {
      ActiveCountAppend(ms[..cursor], ms[cursor + 1..]);
    }
  }

  class AttributeController {
    var lives: int32
    var health: real
    var strength: real
    var speed: real
    var mass: real
    var gravity: real
    var fallingGravity: real
    var gravityScale: real
    var fallingGravityScale: real
    var maladies: seq<Malady>
    var isDead: bool
    var maladyCheckStarted: bool

    /** A controller with the serialized defaults. */
    constructor ()
      ensures lives == 3 && health == 1.0 && strength == 1.0 && speed == 1.0 && mass == 1.0
      ensures gravity == -9.8 && fallingGravity == 9.8 && gravityScale == -2.0 && fallingGravityScale == 2.0
      ensures maladies == [] && !isDead && !maladyCheckStarted
    {
      lives := 3;
      health := 1.0;
      strength := 1.0;
      speed := 1.0;
      mass := 1.0;
      gravity := -9.8;
      fallingGravity := 9.8;
      gravityScale := -2.0;
      fallingGravityScale := 2.0;
      maladies := [];
      isDead := false;
      maladyCheckStarted := false;
    }

    function GetSpeed(): real reads this { speed }
    function GetStrength(): real reads this { strength }
    function GetHealth(): real reads this { health }
    function GetMass(): real reads this { mass }
    function GetGravity(): real reads this { gravity }
    function GetFallingGravity(): real reads this { fallingGravity }
    function GetGravityScale(): real reads this { gravityScale }
    function GetFallingGravityScale(): real reads this { fallingGravityScale }

    /** Copies the nine numeric attributes of the data asset; the maladies and the dead flag are untouched. */
    method LoadFromData(ac: AttributeData)
      modifies this`lives, this`health, this`strength, this`speed, this`mass,
               this`gravity, this`fallingGravity, this`gravityScale, this`fallingGravityScale
      ensures lives == ac.lives && GetHealth() == ac.health && GetStrength() == ac.strength
      ensures GetSpeed() == ac.speed && GetMass() == ac.mass
      ensures GetGravity() == ac.gravity && GetFallingGravity() == ac.fallingGravity
      ensures GetGravityScale() == ac.gravityScale && GetFallingGravityScale() == ac.fallingGravityScale
    {
      lives := ac.lives;
      health := ac.health;
      strength := ac.strength;
      speed := ac.speed;
      mass := ac.mass;
      gravity := ac.gravity;
      fallingGravity := ac.fallingGravity;
      gravityScale := ac.gravityScale;
      fallingGravityScale := ac.fallingGravityScale;
    }

    method SetGravity(newGravity: real)
      modifies this`gravity
      ensures GetGravity() == newGravity
    {
      gravity := newGravity;
    }

    method SetFallingGravity(newGravity: real)
      modifies this`fallingGravity
      ensures GetFallingGravity() == newGravity
    {
      fallingGravity := newGravity;
    }

    method SetGravityScale(newGravity: real)
      modifies this`gravityScale
      ensures GetGravityScale() == newGravity
    {
      gravityScale := newGravity;
    }

    /** As written: sets the (non-falling) gravity scale; the falling gravity scale keeps its value. */
    method SetFallingGravityScale(newGravity: real)
      modifies this`gravityScale
      ensures GetGravityScale() == newGravity
      ensures GetFallingGravityScale() == old(GetFallingGravityScale())
    {
      gravityScale := newGravity;
    }

    /** The evidently intended setter: the falling gravity scale reads back what was set, nothing else changes. */
    method SetFallingGravityScaleCorrected(newGravity: real)
      modifies this`fallingGravityScale
      ensures GetFallingGravityScale() == newGravity
    {
      fallingGravityScale := newGravity;
    }

    /**
     * Resets health, strength and speed to the arguments, the mass to 1 and the
     * flags to false, and empties the malady list; lives and gravity are kept.
     */
    method Initialize(newHealth: real, newStrength: real, newSpeed: real)
      modifies this`health, this`strength, this`speed, this`maladies, this`isDead,
               this`maladyCheckStarted, this`mass
      ensures GetHealth() == newHealth && GetStrength() == newStrength && GetSpeed() == newSpeed
      ensures GetMass() == 1.0 && !isDead && !maladyCheckStarted && maladies == []
    {
      health := newHealth;
      strength := newStrength;
      speed := newSpeed;
      maladies := [];
      isDead := false;
      maladyCheckStarted := false;
      mass := 1.0;
    }

    method AffectStrength(strengthAffector: real)
      modifies this`strength
      ensures GetStrength() == old(GetStrength()) + strengthAffector
    {
      strength := strength + strengthAffector;
    }

    method AffectSpeed(speedAffector: real)
      modifies this`speed
      ensures GetSpeed() == old(GetSpeed()) + speedAffector
    {
      speed := speed + speedAffector;
    }

    method SetSpeed(newSpeed: real)
      modifies this`speed
      ensures GetSpeed() == newSpeed
    {
      speed := newSpeed;
    }

    method SetStrength(newStrength: real)
      modifies this`strength
      ensures GetStrength() == newStrength
    {
      strength := newStrength;
    }

    method SetHealth(totalHealth: real)
      modifies this`health
      ensures GetHealth() == totalHealth
    {
      health := totalHealth;
    }

    /**
     * Subtracts the damage. Health that reaches 0 or less is set to exactly 0
     * and costs a life; losing the last life (lives at 0 or less after the
     * wrapping decrement) pins lives to 0 and marks the object dead. Health left
     * above 0 changes nothing else.
     */
    method Damage(dmgAmount: real)
      modifies this`health, this`lives, this`isDead
      ensures old(health) - dmgAmount > 0.0 ==>
        health == old(health) - dmgAmount && lives == old(lives) && isDead == old(isDead)
      ensures old(health) - dmgAmount <= 0.0 ==>
        && health == 0.0
        && var decremented := WrappingDecrement(old(lives));
        && lives == (if decremented <= 0 then 0 else decremented)
        && isDead == (decremented <= 0 || old(isDead))
      ensures health >= 0.0
      ensures old(health) - dmgAmount <= 0.0 ==> lives >= 0
      ensures isDead != old(isDead) ==> isDead && lives == 0
    {
      health := health - dmgAmount;
      if health <= 0.0 {
        health := 0.0;
        lives := WrappingDecrement(lives);
        if lives <= 0 {
          lives := 0;
          isDead := true;
        }
      }
    }

    /** Adds the amount; positive health afterwards clears the dead flag. Lives never change. */
    method Heal(healAmount: real)
      modifies this`health, this`isDead
      ensures health == old(health) + healAmount
      ensures isDead == (if health > 0.0 then false else old(isDead))
    {
      health := health + healAmount;
      if health > 0.0 {
        isDead := false;
      }
    }

    /**
     * Attaches a malady. A null malady is ignored. Otherwise it is appended,
     * and the sweep is started (the returned flag) only when none was running,
     * after which one is marked as running.
     */
    method DamagingMalady(affect: Option<Malady>) returns (startsSweep: bool)
      modifies this`maladies, this`maladyCheckStarted
      ensures affect.None? ==>
        maladies == old(maladies) && maladyCheckStarted == old(maladyCheckStarted) && !startsSweep
      ensures affect.Some? ==>
        maladies == old(maladies) + [affect.value] && maladyCheckStarted && startsSweep == !old(maladyCheckStarted)
    {
      startsSweep := false;
      if affect.Some? {
        maladies := maladies + [affect.value];
        if !maladyCheckStarted {
          startsSweep := true;
          maladyCheckStarted := true;
        }
      }
    }

    /**
     * One resumption of the malady-check loop with its cursor. An empty list
     * ends the sweep and clears the running flag. A cursor past the end of a
     * non-empty list makes the element lookup throw, which ends the sweep with
     * nothing changed (the running flag stays as it is). Otherwise one pass of
     * the loop body, returning the next cursor, which is again in range.
     */
    method MaladyCheckStep(cursor: nat) returns (next: SweepResume)
      modifies this`maladies, this`maladyCheckStarted
      ensures |old(maladies)| == 0 ==> next == SweepEnded && maladies == old(maladies) && !maladyCheckStarted
      ensures 0 < |old(maladies)| <= cursor ==>
        next == SweepFaulted && maladies == old(maladies) && maladyCheckStarted == old(maladyCheckStarted)
      ensures cursor < |old(maladies)| ==>
        && maladyCheckStarted == old(maladyCheckStarted)
        && next == SweepContinues(SweepStep(old(maladies), cursor).cursor)
        && maladies == SweepStep(old(maladies), cursor).maladies
      ensures next.SweepContinues? && |maladies| > 0 ==> next.cursor < |maladies|
    {
      if |maladies| == 0 {
        maladyCheckStarted := false;
        next := SweepEnded;
      } else if cursor >= |maladies| {
        next := SweepFaulted;
      } else {
        if !maladies[cursor].isActive {
          maladies := maladies[..cursor] + maladies[cursor + 1..];
        }
        next := SweepContinues(if cursor >= |maladies| - 1 then 0 else cursor + 1);
      }
    }

    /**
     * The evidently intended resumption: a cursor left past the end of the
     * list (because the list was replaced while the sweep was suspended)
     * wraps to 0 like the loop's own cursor, so the sweep never faults.
     */
    method MaladyCheckStepCorrected(cursor: nat) returns (next: SweepResume)
      modifies this`maladies, this`maladyCheckStarted
      ensures next != SweepFaulted
      ensures |old(maladies)| == 0 ==> next == SweepEnded && maladies == old(maladies) && !maladyCheckStarted
      ensures |old(maladies)| > 0 ==>
        var start := if cursor < |old(maladies)| then cursor else 0;
        && maladyCheckStarted == old(maladyCheckStarted)
        && next == SweepContinues(SweepStep(old(maladies), start).cursor)
        && maladies == SweepStep(old(maladies), start).maladies
      ensures next.SweepContinues? && |maladies| > 0 ==> next.cursor < |maladies|
    {
      if |maladies| == 0 {
        maladyCheckStarted := false;
        next := SweepEnded;
      } else {
        var start := if cursor < |maladies| then cursor else 0;
        if !maladies[start].isActive {
          maladies := maladies[..start] + maladies[start + 1..];
        }
        next := SweepContinues(if start >= |maladies| - 1 then 0 else start + 1);
      }
    }
  }

  /**
   * A sweep interrupted by Initialize runs off the list. Three active maladies
   * are attached; the first attachment starts sweep A, whose first pass runs at
   * once, and A passes again after each later attachment, leaving its cursor
   * at 2. Initialize empties the list and clears the running flag, so the next
   * attachment starts a second sweep B. When A resumes at cursor 2 the list
   * holds one malady, and the lookup faults.
   */
  method InterruptedSweepRunsOffTheList() returns (resumed: SweepResume)
    ensures resumed == SweepFaulted
  {
    var ac := new AttributeController();
    var starts := ac.DamagingMalady(Some(Malady(0, true)));
    assert starts;
    var a := ac.MaladyCheckStep(0);
    starts := ac.DamagingMalady(Some(Malady(1, true)));
    assert !starts && a == SweepContinues(0);
    a := ac.MaladyCheckStep(a.cursor);
    starts := ac.DamagingMalady(Some(Malady(2, true)));
    assert !starts && a == SweepContinues(1);
    a := ac.MaladyCheckStep(a.cursor);
    assert a == SweepContinues(2) && |ac.maladies| == 3;
    ac.Initialize(1.0, 1.0, 1.0);
    starts := ac.DamagingMalady(Some(Malady(3, true)));
    assert starts && |ac.maladies| == 1;
    var b := ac.MaladyCheckStep(0);
    assert b == SweepContinues(0) && |ac.maladies| == 1;
    resumed := ac.MaladyCheckStep(a.cursor);
  }

  /** The same interleaving with the corrected resumption: sweep A wraps to the start and carries on. */
  method InterruptedSweepCorrectedCarriesOn() returns (resumed: SweepResume)
    ensures resumed == SweepContinues(0)
  {
    var ac := new AttributeController();
    var starts := ac.DamagingMalady(Some(Malady(0, true)));
    var a := ac.MaladyCheckStepCorrected(0);
    starts := ac.DamagingMalady(Some(Malady(1, true)));
    assert a == SweepContinues(0);
    a := ac.MaladyCheckStepCorrected(a.cursor);
    starts := ac.DamagingMalady(Some(Malady(2, true)));
    assert a == SweepContinues(1);
    a := ac.MaladyCheckStepCorrected(a.cursor);
    assert a == SweepContinues(2) && |ac.maladies| == 3;
    ac.Initialize(1.0, 1.0, 1.0);
    starts := ac.DamagingMalady(Some(Malady(3, true)));
    var b := ac.MaladyCheckStepCorrected(0);
    assert b == SweepContinues(0) && ac.maladies == [Malady(3, true)];
    resumed := ac.MaladyCheckStepCorrected(a.cursor);
  }

  /**
   * A freshly made controller asked to set its falling gravity scale to 5
   * still reports its default 2: the setter writes the other field.
   */
  method FallingGravityScaleSetterIgnoresItsArgument() returns (reported: real)
    ensures reported == 2.0 && reported != 5.0
  {
    var ac := new AttributeController();
    ac.SetFallingGravityScale(5.0);
    reported := ac.GetFallingGravityScale();
  }

  /** The corrected setter reads back what it was given. */
  method FallingGravityScaleCorrectedRoundTrip() returns (reported: real)
    ensures reported == 5.0
  {
    var ac := new AttributeController();
    ac.SetFallingGravityScaleCorrected(5.0);
    reported := ac.GetFallingGravityScale();
  }
}
