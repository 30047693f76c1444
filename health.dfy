/**
 * HealthUI: the hearts shown at the bottom left of the window, the number
 * of lives they stand for, and the counter text beside them.
 *
 * The UI layer is kept as the set of serials of the hearts drawn in it. The
 * two static fields the source shares with Heart (needToAddHeart, set when
 * a falling heart is caught, and the caught heart waiting to be deleted)
 * are fields here; the game carries them over when it starts a new session.
 */
module Health {
  import opened Basics

  const STARTING_HEARTS: int := 3
  const MAX_HEARTS: nat := 4
  const HEARTS_DIM: real := 20.0

  /** A heart drawn in the UI layer: a serial that tells hearts apart, and its top-left corner. */
  datatype UIHeart = UIHeart(serial: nat, topLeft: Vec)

  /** The counter text's colour; Default is the colour it is created with. */
  datatype Color = Default | Green | Yellow | Red

  /** The serial of a slot's heart, -1 for an empty (null) slot. */
  function SerialAt(h: Option<UIHeart>): int {
    if h.Some? then h.value.serial else -1
  }

  /** The serials of the hearts in a stretch of slots. */
  function Serials(s: seq<Option<UIHeart>>): set<nat> {
    if |s| == 0 then {}
    else Serials(s[..|s| - 1]) + (if s[|s| - 1].Some? then {s[|s| - 1].value.serial} else {})
  }

  /** Every slot holds a heart, and the serials strictly increase along the slots. */
  predicate Ordered(s: seq<Option<UIHeart>>) {
    && (forall i :: 0 <= i < |s| ==> s[i].Some?)
    && (forall i, j :: 0 <= i < j < |s| ==> SerialAt(s[i]) < SerialAt(s[j]))
  }

  /** Where addHeart puts the heart of slot i: one heart width apart, starting one width from the left edge, on the bottom row. */
  function Slot(i: int, windowHeight: real): Vec {
    Vec(HEARTS_DIM * (i + 1) as real, windowHeight - HEARTS_DIM)
  }

  /** The counter's colour for a health value; 0 (or less) keeps the previous colour. */
  function ColorFor(health: int, previous: Color): Color {
    if health >= 3 then Green
    else if health == 2 then Yellow
    else if health == 1 then Red
    else previous
  }

  /** Appending a heart adds exactly its serial. */
  lemma SerialsAppend(s: seq<Option<UIHeart>>, h: UIHeart)
    ensures Serials(s + [Some(h)]) == Serials(s) + {h.serial}
  {
    assert (s + [Some(h)])[..|s|] == s;
  }

  /** When every serial in the slots is below b, so is every member of Serials. */
  lemma {:induction false} SerialsBelow(s: seq<Option<UIHeart>>, b: int)
    requires forall i :: 0 <= i < |s| ==> SerialAt(s[i]) < b
    ensures forall x :: x in Serials(s) ==> x < b
  {
    if |s| > 0 {
      SerialsBelow(s[..|s| - 1], b);
    }
  }

  /** With increasing serials, the hearts shown are exactly as many as the slots. */
  lemma {:induction false} SerialsCount(s: seq<Option<UIHeart>>)
    requires Ordered(s)
    ensures |Serials(s)| == |s|
  {
    if |s| > 0 {
      var p := s[..|s| - 1];
      assert Ordered(p);
      SerialsCount(p);
      SerialsBelow(p, SerialAt(s[|s| - 1]));
    }
  }

  /** Taking the last heart off removes exactly its serial. */
  lemma SerialsDropLast(s: seq<Option<UIHeart>>)
    requires Ordered(s) && |s| > 0
    ensures Serials(s[..|s| - 1]) == Serials(s) - {SerialAt(s[|s| - 1])}
  {
    SerialsBelow(s[..|s| - 1], SerialAt(s[|s| - 1]));
  }

  class HealthUI {
    const health: array<Option<UIHeart>>
    const windowHeight: real
    var curHealth: int
    var needToAddHeart: bool
    var collisionHeartDelete: Option<Id>
    var shown: int              // the number the counter text shows
    var color: Color
    var uiLayer: set<nat>       // serials of the hearts drawn in the UI layer
    var created: nat            // hearts created so far; the next heart's serial

    /** The hearts of slots 0 .. curHealth - 1 are exactly the ones drawn, in creation order, at their slots. */
    ghost predicate Valid()
      reads this, health
    {
      && health.Length == MAX_HEARTS
      && 0 <= curHealth <= MAX_HEARTS
      && Ordered(health[..curHealth])
      && (forall i :: 0 <= i < curHealth ==> SerialAt(health[i]) < created)
      && (forall i :: 0 <= i < curHealth && health[i].Some? ==> health[i].value.topLeft == Slot(i, windowHeight))
      && uiLayer == Serials(health[..curHealth])
    }

    /** A new HealthUI: no hearts yet; the two shared flags keep the values they had. */
    constructor (windowHeight: real, needToAddHeart: bool, collisionHeartDelete: Option<Id>)
      ensures Valid() && fresh(health)
      ensures this.windowHeight == windowHeight && curHealth == 0 && uiLayer == {} && created == 0
      ensures this.needToAddHeart == needToAddHeart && this.collisionHeartDelete == collisionHeartDelete
      ensures shown == 0 && color == Default
    {
      health := new Option<UIHeart>[MAX_HEARTS](_ => None);
      this.windowHeight := windowHeight;
      curHealth := 0;
      this.needToAddHeart := needToAddHeart;
      this.collisionHeartDelete := collisionHeartDelete;
      shown := 0;
      color := Default;
      uiLayer := {};
      created := 0;
    }

    /** addHeart: a new heart in the next slot, drawn in the UI layer; nothing at MAX_HEARTS. */
    method AddHeart()
      requires Valid()
      modifies this, health
      ensures Valid()
      ensures old(curHealth) == MAX_HEARTS ==>
        curHealth == old(curHealth) && uiLayer == old(uiLayer) && created == old(created)
      ensures old(curHealth) < MAX_HEARTS ==>
        && curHealth == old(curHealth) + 1
        && health[old(curHealth)] == Some(UIHeart(old(created), Slot(old(curHealth), windowHeight)))
        && uiLayer == old(uiLayer) + {old(created)}
        && created == old(created) + 1
      ensures forall i :: 0 <= i < old(curHealth) ==> health[i] == old(health[i])
      ensures needToAddHeart == old(needToAddHeart) && collisionHeartDelete == old(collisionHeartDelete)
      ensures shown == old(shown) && color == old(color)
    {
      if curHealth == MAX_HEARTS {
        return;
      }
      var h := UIHeart(created, Slot(curHealth, windowHeight));
      health[curHealth] := Some(h);
      assert health[..curHealth + 1] == old(health[..curHealth]) + [Some(h)];
      SerialsAppend(old(health[..curHealth]), h);
      uiLayer := uiLayer + {created};
      created := created + 1;
      curHealth := curHealth + 1;
    }

    /** removeHeart: the last heart leaves the UI layer (its slot keeps it); nothing when there is none. */
    method RemoveHeart()
      requires Valid()
      modifies this
      ensures Valid()
      ensures old(curHealth) == 0 ==> curHealth == 0 && uiLayer == old(uiLayer)
      ensures old(curHealth) > 0 ==>
        curHealth == old(curHealth) - 1 && uiLayer == old(uiLayer) - {SerialAt(health[curHealth])}
      ensures created == old(created) && needToAddHeart == old(needToAddHeart)
      ensures collisionHeartDelete == old(collisionHeartDelete) && shown == old(shown) && color == old(color)
    {
      if curHealth > 0 {
        assert health[..curHealth - 1] == health[..curHealth][..curHealth - 1];
        SerialsDropLast(health[..curHealth]);
        curHealth := curHealth - 1;
        uiLayer := uiLayer - {SerialAt(health[curHealth])};
      }
    }

    /** startHealth: three addHeart calls, then the counter text, which shows STARTING_HEARTS. */
    method StartHealth()
      requires Valid()
      modifies this, health
      ensures Valid()
      ensures curHealth == Min(old(curHealth) + STARTING_HEARTS, MAX_HEARTS)
      ensures shown == STARTING_HEARTS && color == old(color)
      ensures needToAddHeart == old(needToAddHeart) && collisionHeartDelete == old(collisionHeartDelete)
    {
      for i := 0 to STARTING_HEARTS
        invariant Valid()
        invariant curHealth == Min(old(curHealth) + i, MAX_HEARTS)
        invariant color == old(color)
        invariant needToAddHeart == old(needToAddHeart) && collisionHeartDelete == old(collisionHeartDelete)
      {
        AddHeart();
      }
      shown := STARTING_HEARTS;
    }

    /**
     * updateHealth: adds a heart when one was caught and there is room, so
     * the flag is always clear afterwards; refreshes the counter; hands back
     * the caught heart that must leave the game and forgets it.
     */
    method UpdateHealth() returns (toRemove: Option<Id>)
      requires Valid()
      modifies this, health
      ensures Valid()
      ensures curHealth == old(curHealth) + (if old(needToAddHeart) && old(curHealth) < MAX_HEARTS then 1 else 0)
      ensures uiLayer == if old(needToAddHeart) && old(curHealth) < MAX_HEARTS
                         then old(uiLayer) + {old(created)} else old(uiLayer)
      ensures !needToAddHeart
      ensures shown == curHealth && color == ColorFor(curHealth, old(color))
      ensures toRemove == old(collisionHeartDelete) && collisionHeartDelete == None
    {
      if needToAddHeart && curHealth < MAX_HEARTS {
        AddHeart();
        needToAddHeart := false;
      }
      if curHealth == MAX_HEARTS {
        needToAddHeart := false;
      }
      UpdateText();
      toRemove := collisionHeartDelete;
      collisionHeartDelete := None;
    }

    /** updateText: the counter shows the health, green from 3, yellow at 2, red at 1, unchanged at 0. */
    method UpdateText()
      modifies this
      ensures shown == curHealth && color == ColorFor(curHealth, old(color))
      ensures curHealth == old(curHealth) && uiLayer == old(uiLayer) && created == old(created)
      ensures needToAddHeart == old(needToAddHeart) && collisionHeartDelete == old(collisionHeartDelete)
    {
      shown := curHealth;
      if curHealth >= 3 {
        color := Green;
      } else if curHealth == 2 {
        color := Yellow;
      } else if curHealth == 1 {
        color := Red;
      }
    }

    /** Heart.onCollisionEnter: a caught falling heart asks for a new life and waits to be deleted. */
    method RecordCaughtHeart(heart: Id)
      modifies this
      ensures needToAddHeart && collisionHeartDelete == Some(heart)
      ensures curHealth == old(curHealth) && uiLayer == old(uiLayer) && created == old(created)
      ensures shown == old(shown) && color == old(color)
    {
      needToAddHeart := true;
      collisionHeartDelete := Some(heart);
    }

    method GetCurHealth() returns (h: int)
      ensures h == curHealth
    {
      h := curHealth;
    }

    /** As many hearts are drawn as there are lives. */
    lemma HeartsMatchHealth()
      requires Valid()
      ensures |uiLayer| == curHealth
    {
      SerialsCount(health[..curHealth]);
    }
  }
}
