/**
 * HudState: an immutable (id, name) pair used to select HUDs.  Equality and
 * inequality look at the id only; the name is carried for display.
 */
module HudStates {

  datatype HudState = HudState(id: int, name: string)

  /** The default-constructed state. */
  function Default(): (h: HudState)
    ensures h.id == -1 && h.name == "none"
  {
    HudState(-1, "none")
  }

  const HUD_STATE_NONE: HudState := HudState(-1, "none")

  /** operator== */
  predicate Eq(a: HudState, b: HudState) {
    a.id == b.id
  }

  /** operator!= */
  predicate Neq(a: HudState, b: HudState) {
    a.id != b.id
  }

  /** operator int */
  function ToInt(h: HudState): int {
    h.id
  }

  /** operator std::string */
  function ToString(h: HudState): string {
    h.name
  }

  function GetName(h: HudState): string {
    h.name
  }

  /** Equality is an equivalence relation determined by the int conversion alone. */
  lemma EqIsIdEquivalence(a: HudState, b: HudState, c: HudState)
    ensures Eq(a, a)
    ensures Eq(a, b) ==> Eq(b, a)
    ensures Eq(a, b) && Eq(b, c) ==> Eq(a, c)
    ensures Eq(a, b) <==> ToInt(a) == ToInt(b)
  {
  }

  /** Names are ignored: two states with one id are equal whatever they are called. */
  lemma EqIgnoresNames(id: int, n1: string, n2: string)
    ensures Eq(HudState(id, n1), HudState(id, n2))
    ensures n1 != n2 ==> HudState(id, n1) != HudState(id, n2)
  {
  }

  lemma NeqIsNotEq(a: HudState, b: HudState)
    ensures Neq(a, b) <==> !Eq(a, b)
  {
  }

  /** The conversions read back what the two-argument constructor was given. */
  lemma ConversionsRoundTrip(id: int, name: string)
    ensures ToInt(HudState(id, name)) == id
    ensures ToString(HudState(id, name)) == name && GetName(HudState(id, name)) == name
  {
  }

  lemma NoneIsDefault()
    ensures HUD_STATE_NONE == Default() && Eq(HUD_STATE_NONE, Default())
  {
  }
}
