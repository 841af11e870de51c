/**
 * The hero section's typewriter: it cycles through a fixed list of roles,
 * typing each one character by character, holding it, deleting it, and
 * moving on to the next role. Every timer tick of the effect is one `Next`
 * step; the delayed "start deleting" timeout is a separate `Hold` event.
 */
module Hero {

  import opened Wrappers

  /** The roles cycled through, in order. */
  const Roles: seq<string> := [
    "Full-Stack Software Engineer (MERN)",
    "Data Scientist & Data Engineer",
    "AWS Solutions Architect Path",
    "Certified AI-Project Manager"
  ]

  /** The icon shown beside each role. */
  datatype RoleIcon = Code | Database | Cloud | Briefcase

  const RoleIcons: seq<RoleIcon> := [Code, Database, Cloud, Briefcase]

  /** Milliseconds before the next tick while typing and while deleting. */
  const TypeDelay: nat := 80
  const DeleteDelay: nat := 30

  /** Milliseconds a fully typed role is held before deletion starts. */
  const HoldDelay: nat := 2000

  /** The three state variables of the effect. */
  datatype Typing = Typing(index: nat, text: string, deleting: bool)

  /** The state before any tick. */
  function Start(): (s: Typing)
    ensures s.index == 0 && s.text == [] && !s.deleting
  {
    Typing(0, [], false)
  }

  /** The role currently being typed or deleted. */
  function Role(s: Typing): string
    requires s.index < |Roles|
  {
    Roles[s.index]
  }

  /** The index is in bounds and the text shown is a prefix of that role. */
  predicate Inv(s: Typing)
  {
    s.index < |Roles| && s.text <= Roles[s.index]
  }

  /** A tick while typing a role that is already complete schedules the hold. */
  predicate HoldDue(s: Typing)
    requires s.index < |Roles|
  {
    !s.deleting && |s.text| >= |Role(s)|
  }

  /** The delay before the timer of state `s` fires. */
  function Delay(s: Typing): (ms: nat)
    ensures ms < TypeDelay <==> s.deleting
    ensures ms == DeleteDelay || ms == TypeDelay
  {
    if s.deleting then DeleteDelay else TypeDelay
  }

  /** One timer tick of the effect. */
  function Next(s: Typing): (t: Typing)
    requires s.index < |Roles|
    ensures Inv(s) ==> Inv(t)
    ensures !s.deleting ==> t.index == s.index && !t.deleting
    ensures !s.deleting && |s.text| < |Role(s)| ==>
              |t.text| == |s.text| + 1 && t.text == Role(s)[..|t.text|]
    ensures HoldDue(s) ==> t == s
    ensures s.deleting && s.text != [] ==>
              t.index == s.index && t.deleting && t.text + [s.text[|s.text| - 1]] == s.text
    ensures s.deleting && s.text == [] ==>
              t == Typing((s.index + 1) % |Roles|, [], false)
  {
    var role := Role(s);
    if !s.deleting then
      if |s.text| < |role| then s.(text := role[..|s.text| + 1])
      else s
    else if |s.text| > 0 then s.(text := s.text[..|s.text| - 1])
    else Typing((s.index + 1) % |Roles|, s.text, false)
  }

  /** The delayed timeout that starts deletion. */
  function HoldFired(s: Typing): (t: Typing)
    ensures Inv(s) ==> Inv(t)
    ensures t.deleting && t.index == s.index && t.text == s.text
  {
    s.(deleting := true)
  }

  /** `n` consecutive ticks with no hold event among them. */
  function Run(s: Typing, n: nat): (t: Typing)
    requires Inv(s)
    ensures Inv(t)
    decreases n
  {
    if n == 0 then s else Run(Next(s), n - 1)
  }

  /** Typing `k` more characters of the role, one per tick. */
  lemma {:induction false} TypeOut(s: Typing, k: nat)
    requires Inv(s) && !s.deleting && |s.text| + k <= |Role(s)|
    ensures Run(s, k) == s.(text := Role(s)[..|s.text| + k])
    decreases k
  {
    if k > 0 {
      var t := Next(s);
      assert t == s.(text := Role(s)[..|s.text| + 1]);
      TypeOut(t, k - 1);
    } else {
      assert s.text == Role(s)[..|s.text|];
    }
  }

  /** Deleting `k` characters, one per tick. */
  lemma {:induction false} DeleteDown(s: Typing, k: nat)
    requires Inv(s) && s.deleting && k <= |s.text|
    ensures Run(s, k) == s.(text := s.text[..|s.text| - k])
    decreases k
  {
    if k > 0 {
      var t := Next(s);
      assert t == s.(text := s.text[..|s.text| - 1]);
      DeleteDown(t, k - 1);
      assert t.text[..|t.text| - (k - 1)] == s.text[..|s.text| - k];
    }
  }

  /**
   * One full cycle: starting on role `i` with nothing shown, |role| ticks type
   * the whole role, after which ticks change nothing until the hold fires;
   * |role| further ticks delete it and one more moves to the next role.
   */
  lemma Cycle(i: nat)
    requires i < |Roles|
    ensures var s0 := Typing(i, [], false);
            var typed := Run(s0, |Roles[i]|);
            typed == Typing(i, Roles[i], false) && HoldDue(typed) && Next(typed) == typed &&
            Run(HoldFired(typed), |Roles[i]| + 1) == Typing((i + 1) % |Roles|, [], false)
  {
    var role := Roles[i];
    var s0 := Typing(i, [], false);
    TypeOut(s0, |role|);
    var typed := Run(s0, |role|);
    assert typed == Typing(i, role, false);
    var held := HoldFired(typed);
    DeleteDown(held, |role|);
    var emptied := Run(held, |role|);
    assert emptied == Typing(i, [], true);
    RunSplit(held, |role|, 1);
  }

  /** Running `m + n` ticks is running `m` and then `n`. */
  lemma {:induction false} RunSplit(s: Typing, m: nat, n: nat)
    requires Inv(s)
    ensures Run(s, m + n) == Run(Run(s, m), n)
    decreases m
  {
    if m > 0 {
      calc {
        Run(s, m + n);
        Run(Next(s), (m - 1) + n);
        { RunSplit(Next(s), m - 1, n); }
        Run(Run(Next(s), m - 1), n);
      }
    }
  }

  /** Every role has an icon, so the icon lookup is in bounds for every valid state. */
  lemma IconsCoverRoles(s: Typing)
    requires Inv(s)
    ensures |RoleIcons| == |Roles| && s.index < |RoleIcons|
  {
  }

  /** No two roles share an icon. */
  lemma IconsDistinct()
    ensures forall i, j :: 0 <= i < |RoleIcons| && 0 <= j < |RoleIcons| && RoleIcons[i] == RoleIcons[j] ==> i == j
  {
  }

  /** A tick changes the icon shown exactly when it moves on to the next role. */
  lemma IconFollowsRole(s: Typing)
    requires Inv(s)
    ensures RoleIcons[Next(s).index] != RoleIcons[s.index] <==> Next(s).index != s.index
    ensures RoleIcons[Next(s).index] != RoleIcons[s.index] <==> s.deleting && s.text == []
  {
    IconsDistinct();
  }

  /** The typewriter as the component holds it: three state variables updated per tick. */
  class Typewriter {
    var currentRoleIndex: nat
    var displayText: string
    var isDeleting: bool

    function State(): Typing
      reads this
    {
      Typing(currentRoleIndex, displayText, isDeleting)
    }

    predicate Valid()
      reads this
    {
      Inv(State())
    }

    constructor ()
      ensures Valid() && State() == Start()
    {
      currentRoleIndex, displayText, isDeleting := 0, [], false;
    }

    /** The icon shown for the current role; no other role shares it. */
    function CurrentIcon(): (icon: RoleIcon)
      reads this
      requires Valid()
      ensures icon in RoleIcons
      ensures forall j :: 0 <= j < |Roles| && RoleIcons[j] == icon ==> j == currentRoleIndex
    {
      IconsDistinct();
      RoleIcons[currentRoleIndex]
    }

    /** The timer callback; `hold` is the delay of the hold timeout it started, if any. */
    method Step() returns (hold: Option<nat>)
      requires Valid()
      modifies this
      ensures Valid() && State() == Next(old(State()))
      ensures hold.Some? <==> HoldDue(old(State()))
      ensures hold.Some? ==> hold.value == HoldDelay
    {
      var currentRole := Roles[currentRoleIndex];
      hold := None;
      if !isDeleting {
        if |displayText| < |currentRole| {
          displayText := currentRole[..|displayText| + 1];
        } else {
          hold := Some(HoldDelay);
        }
      } else {
        if |displayText| > 0 {
          displayText := displayText[..|displayText| - 1];
        } else {
          isDeleting := false;
          currentRoleIndex := (currentRoleIndex + 1) % |Roles|;
        }
      }
    }

    /** The hold timeout firing. */
    method Hold()
      requires Valid()
      modifies this
      ensures Valid() && State() == HoldFired(old(State()))
    {
      isDeleting := true;
    }
  }
}
