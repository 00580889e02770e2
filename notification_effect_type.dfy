/** The closed table of notification effect kinds and their wire codes. */
module NotificationEffects {
  import opened Wrappers

  /** Java's signed `byte`. */
  newtype int8 = x: int | -128 <= x < 128

  datatype NotificationEffectType =
    | StatIncrease
    | ServerMessage
    | ErrorMessage
    | KeepMessage
    | UI
    | Queue
    | ObjectText
    | Death
    | DungeonOpened
    | DungeonCall
  {
    /** The code the variant was declared with (`get()`); 9 is never used. */
    function Get(): (code: int)
      ensures 0 <= code <= 10 && code != 9
    {
      match this
      case StatIncrease => 0
      case ServerMessage => 1
      case ErrorMessage => 2
      case KeepMessage => 3
      case UI => 4
      case Queue => 5
      case ObjectText => 6
      case Death => 7
      case DungeonOpened => 8
      case DungeonCall => 10
    }
  }

  /** The variants in declaration order, as `values()` returns them. */
  const Values: seq<NotificationEffectType> :=
    [StatIncrease, ServerMessage, ErrorMessage, KeepMessage, UI, Queue,
     ObjectText, Death, DungeonOpened, DungeonCall]

  lemma ValuesComplete(o: NotificationEffectType)
    ensures o in Values
  {
    match o
    case StatIncrease => assert Values[0] == o;
    case ServerMessage => assert Values[1] == o;
    case ErrorMessage => assert Values[2] == o;
    case KeepMessage => assert Values[3] == o;
    case UI => assert Values[4] == o;
    case Queue => assert Values[5] == o;
    case ObjectText => assert Values[6] == o;
    case Death => assert Values[7] == o;
    case DungeonOpened => assert Values[8] == o;
    case DungeonCall => assert Values[9] == o;
  }

  /** Distinct variants have distinct codes. */
  lemma GetInjective(a: NotificationEffectType, b: NotificationEffectType)
    ensures a.Get() == b.Get() ==> a == b
  {
  }

  /** The linear search of `byOrdinal` over a list of variants: the first one whose code is `ord`. */
  function FindByCode(vs: seq<NotificationEffectType>, ord: int): (r: Option<NotificationEffectType>)
    ensures r.Some? ==> r.value in vs && r.value.Get() == ord
    ensures r.None? <==> forall o :: o in vs ==> o.Get() != ord
  {
    if vs == [] then None
    else if vs[0].Get() == ord then Some(vs[0])
    else FindByCode(vs[1..], ord)
  }

  /** `byOrdinal(byte)`: the variant whose code is `ord`, or None where Java returns null. */
  function ByOrdinal(ord: int8): (r: Option<NotificationEffectType>)
    ensures r.Some? ==> r.value.Get() == ord as int
    ensures r.None? <==> forall o: NotificationEffectType :: o.Get() != ord as int
  {
    var r := FindByCode(Values, ord as int);
    assert r.None? ==> forall o: NotificationEffectType :: o.Get() != ord as int by {
      forall o: NotificationEffectType ensures r.None? ==> o.Get() != ord as int {
        ValuesComplete(o);
      }
    }
    r
  }

  /** Looking up a variant's own code gives that variant back. */
  lemma RoundTrip(o: NotificationEffectType)
    ensures ByOrdinal(o.Get() as int8) == Some(o)
  {
    var r := ByOrdinal(o.Get() as int8);
    assert r.Some?;
    GetInjective(r.value, o);
  }

  /** The gap at 9 and every code outside 0..10 find nothing, rather than failing. */
  lemma Absent(ord: int8)
    requires ord == 9 || ord < 0 || ord > 10
    ensures ByOrdinal(ord) == None
  {
  }
}
