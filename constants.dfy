/** The option lists the UI offers for the two enumerations. */
module Constants {
  import opened Types

  /** Contents of the bank select box. */
  const BANKS: seq<Bank> :=
    [Popular, Occidente, Davivienda, Bogota, Bbva, Bancoomeva, Bancolombia, AvVillas, Agrario]

  /** Contents of the entity select box. */
  const ENTITY_OPTIONS: seq<EntityOption> := [GVAL, VEDU]

  /** BANKS holds every bank exactly once, in declaration order. */
  lemma BanksComplete()
    ensures |BANKS| == 9
    ensures forall b: Bank :: b in BANKS
    ensures forall i, j :: 0 <= i < j < |BANKS| ==> BANKS[i] != BANKS[j]
    ensures forall i :: 0 <= i < |BANKS| ==> BankOrdinal(BANKS[i]) == i
    ensures BANKS[0] == Popular && BANKS[|BANKS| - 1] == Agrario
  {
    forall b: Bank
      ensures b in BANKS
    {
      assert BANKS[BankOrdinal(b)] == b by {
        match b
        case Popular =>
        case Occidente =>
        case Davivienda =>
        case Bogota =>
        case Bbva =>
        case Bancoomeva =>
        case Bancolombia =>
        case AvVillas =>
        case Agrario =>
      }
    }
  }

  /** ENTITY_OPTIONS holds both tags exactly once, GVAL first. */
  lemma EntityOptionsComplete()
    ensures |ENTITY_OPTIONS| == 2
    ensures forall e: EntityOption :: e in ENTITY_OPTIONS
    ensures ENTITY_OPTIONS[0] == GVAL && ENTITY_OPTIONS[1] == VEDU
    ensures ENTITY_OPTIONS[0] != ENTITY_OPTIONS[1]
  {
    forall e: EntityOption
      ensures e in ENTITY_OPTIONS
    {
      match e
      case GVAL => assert ENTITY_OPTIONS[0] == e;
      case VEDU => assert ENTITY_OPTIONS[1] == e;
    }
  }

  /** The session's initial selections are among the offered options. */
  lemma InitialSelectionsOffered()
    ensures Popular in BANKS && GVAL in ENTITY_OPTIONS
  {
    assert BANKS[0] == Popular;
    assert ENTITY_OPTIONS[0] == GVAL;
  }
}
