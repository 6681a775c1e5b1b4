/**
 * The closed enumerations of the decoder. Each member carries its Python
 * value; `XOf(v)` is the lookup `X(v)`, None where Python raises ValueError.
 */
module Enums {
  import opened Wrappers

  datatype Status =
    | Unknown | Shutdown | Standby | Pause | Appointment | Cooking | Preheat | Cooked
    | PreheatFinish | PreheatPause | Pause2 | Keepwarm | KeepwarmPause | KeepwarmFinish
    | CrispyRoast | Degrease
  {
    function Value(): int {
      match this
      case Unknown => -1
      case Shutdown => 0
      case Standby => 1
      case Pause => 2
      case Appointment => 3
      case Cooking => 4
      case Preheat => 5
      case Cooked => 6
      case PreheatFinish => 7
      case PreheatPause => 8
      case Pause2 => 9
      case Keepwarm => 10
      case KeepwarmPause => 11
      case KeepwarmFinish => 12
      case CrispyRoast => 13
      case Degrease => 14
    }
  }

  /** `Status(v)`: defined exactly on -1..14, and it finds the member of that value. */
  function StatusOf(v: int): (r: Option<Status>)
    ensures r.Some? <==> -1 <= v <= 14
    ensures r.Some? ==> r.value.Value() == v
  {
    if v == -1 then Some(Status.Unknown)
    else if v == 0 then Some(Shutdown)
    else if v == 1 then Some(Standby)
    else if v == 2 then Some(Status.Pause)
    else if v == 3 then Some(Appointment)
    else if v == 4 then Some(Cooking)
    else if v == 5 then Some(Preheat)
    else if v == 6 then Some(Cooked)
    else if v == 7 then Some(PreheatFinish)
    else if v == 8 then Some(PreheatPause)
    else if v == 9 then Some(Pause2)
    else if v == 10 then Some(Keepwarm)
    else if v == 11 then Some(KeepwarmPause)
    else if v == 12 then Some(KeepwarmFinish)
    else if v == 13 then Some(CrispyRoast)
    else if v == 14 then Some(Degrease)
    else None
  }

  /** Every member is found again from its value. */
  lemma StatusOfValue(s: Status)
    ensures StatusOf(s.Value()) == Some(s)
  {
  }

  datatype DeviceFault = Unknown | NoFaults | E1 | E2 | E3
  {
    function Value(): int {
      match this
      case Unknown => -1
      case NoFaults => 0
      case E1 => 1
      case E2 => 2
      case E3 => 3
    }
  }

  /** `DeviceFault(v)`: defined exactly on -1..3. */
  function DeviceFaultOf(v: int): (r: Option<DeviceFault>)
    ensures r.Some? <==> -1 <= v <= 3
    ensures r.Some? ==> r.value.Value() == v
  {
    if v == -1 then Some(DeviceFault.Unknown)
    else if v == 0 then Some(NoFaults)
    else if v == 1 then Some(E1)
    else if v == 2 then Some(E2)
    else if v == 3 then Some(E3)
    else None
  }

  lemma DeviceFaultOfValue(f: DeviceFault)
    ensures DeviceFaultOf(f.Value()) == Some(f)
  {
  }

  datatype FoodQuanty = Unknown | Null | Single | Double | Half | Full
  {
    function Value(): int {
      match this
      case Unknown => -1
      case Null => 0
      case Single => 1
      case Double => 2
      case Half => 3
      case Full => 4
    }
  }

  /** `FoodQuanty(v)`: defined exactly on -1..4. */
  function FoodQuantyOf(v: int): (r: Option<FoodQuanty>)
    ensures r.Some? <==> -1 <= v <= 4
    ensures r.Some? ==> r.value.Value() == v
  {
    if v == -1 then Some(FoodQuanty.Unknown)
    else if v == 0 then Some(FoodQuanty.Null)
    else if v == 1 then Some(Single)
    else if v == 2 then Some(Double)
    else if v == 3 then Some(Half)
    else if v == 4 then Some(Full)
    else None
  }

  lemma FoodQuantyOfValue(q: FoodQuanty)
    ensures FoodQuantyOf(q.Value()) == Some(q)
  {
  }

  datatype TurnPot = Unknown | NotTurnPot | SwitchOff | TurnPot
  {
    function Value(): int {
      match this
      case Unknown => -1
      case NotTurnPot => 0
      case SwitchOff => 1
      case TurnPot => 2
    }
  }

  /** `TurnPot(v)`: defined exactly on -1..2. */
  function TurnPotOf(v: int): (r: Option<TurnPot>)
    ensures r.Some? <==> -1 <= v <= 2
    ensures r.Some? ==> r.value.Value() == v
  {
    if v == -1 then Some(TurnPot.Unknown)
    else if v == 0 then Some(NotTurnPot)
    else if v == 1 then Some(SwitchOff)
    else if v == 2 then Some(TurnPot.TurnPot)
    else None
  }

  lemma TurnPotOfValue(t: TurnPot)
    ensures TurnPotOf(t.Value()) == Some(t)
  {
  }

  datatype PreheatSwitch = Unknown | Null | Off | On
  {
    function Value(): int {
      match this
      case Unknown => -1
      case Null => 0
      case Off => 1
      case On => 2
    }
  }

  /** `PreheatSwitch(v)`: defined exactly on -1..2. */
  function PreheatSwitchOf(v: int): (r: Option<PreheatSwitch>)
    ensures r.Some? <==> -1 <= v <= 2
    ensures r.Some? ==> r.value.Value() == v
  {
    if v == -1 then Some(PreheatSwitch.Unknown)
    else if v == 0 then Some(PreheatSwitch.Null)
    else if v == 1 then Some(Off)
    else if v == 2 then Some(On)
    else None
  }

  lemma PreheatSwitchOfValue(p: PreheatSwitch)
    ensures PreheatSwitchOf(p.Value()) == Some(p)
  {
  }
}
