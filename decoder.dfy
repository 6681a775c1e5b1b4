/**
 * The status side of the client: folding a batched property read into the
 * status dictionary (`FryerMiot.status`) and the typed views over that
 * dictionary (`FryerStatusMiot`). Every view reads `data[key]`, so a key the
 * batch did not contain raises KeyError; a key whose read failed holds None.
 */
module StatusDecoder {
  import opened Wrappers
  import opened Wire
  import opened Enums
  import opened Tables
  import Recipes
  import Mapping

  /** One record of a batched read, `{"did": ..., "code": ..., "value": ...}`. */
  datatype PropertyResult = PropertyResult(did: string, code: int, value: Option<Value>)

  /** The dictionary a FryerStatusMiot wraps: property name to value, None for a failed read. */
  type StatusData = map<string, Option<Value>>

  /** What a record contributes: its value when its code is 0, None otherwise. */
  function Reading(p: PropertyResult): Option<Value> {
    if p.code == 0 then p.value else None
  }

  /**
   * The dict comprehension of `FryerMiot.status`: one key per did of the
   * batch (what each key holds is CollectLastWins).
   */
  function Collect(batch: seq<PropertyResult>): (data: StatusData)
    ensures data.Keys == set i | 0 <= i < |batch| :: batch[i].did
  {
    if |batch| == 0 then map[]
    else
      var last := batch[|batch| - 1];
      Collect(batch[..|batch| - 1])[last.did := Reading(last)]
  }

  /** A did holds the reading of the last record that carries it: a later record overrides an earlier one. */
  lemma {:induction false} CollectLastWins(batch: seq<PropertyResult>, i: int)
    requires 0 <= i < |batch|
    requires forall j :: i < j < |batch| ==> batch[j].did != batch[i].did
    ensures batch[i].did in Collect(batch) && Collect(batch)[batch[i].did] == Reading(batch[i])
  {
    if i < |batch| - 1 {
      var prefix := batch[..|batch| - 1];
      CollectLastWins(prefix, i);
    }
  }

  predicate DistinctDids(batch: seq<PropertyResult>) {
    forall i, j :: 0 <= i < j < |batch| ==> batch[i].did != batch[j].did
  }

  /** With no repeated did, each record's reading is what its did holds. */
  lemma CollectDistinct(batch: seq<PropertyResult>, i: int)
    requires DistinctDids(batch) && 0 <= i < |batch|
    ensures batch[i].did in Collect(batch) && Collect(batch)[batch[i].did] == Reading(batch[i])
  {
    CollectLastWins(batch, i);
  }

  /**
   * Readings are matched by did, not position: two batches of the same
   * records without repeated dids fold to the same dictionary.
   */
  lemma {:induction false} CollectOrderIrrelevant(a: seq<PropertyResult>, b: seq<PropertyResult>)
    requires DistinctDids(a) && DistinctDids(b)
    requires forall i :: 0 <= i < |a| ==> a[i] in b
    requires forall j :: 0 <= j < |b| ==> b[j] in a
    ensures Collect(a) == Collect(b)
  {
    CollectIncluded(a, b);
    CollectIncluded(b, a);
  }

  /** Every key of the first batch's dictionary is in the second's, holding the same reading. */
  lemma CollectIncluded(a: seq<PropertyResult>, b: seq<PropertyResult>)
    requires DistinctDids(a) && DistinctDids(b)
    requires forall i :: 0 <= i < |a| ==> a[i] in b
    ensures forall k :: k in Collect(a) ==> k in Collect(b) && Collect(a)[k] == Collect(b)[k]
  {
    forall k | k in Collect(a)
      ensures k in Collect(b) && Collect(a)[k] == Collect(b)[k]
    {
      var i :| 0 <= i < |a| && a[i].did == k;
      var j :| 0 <= j < |b| && b[j] == a[i];
      CollectDistinct(a, i);
      CollectDistinct(b, j);
    }
  }

  /** `Status(raw)`, None where Python raises ValueError. */
  function StatusLookup(raw: Option<Value>): Option<Status> {
    match AsInt(raw)
    case Some(v) => StatusOf(v)
    case None => None
  }

  /** `is_on`: the raw status is none of 0, 1, 6, 9 (compared with Python's `==`). */
  function IsOn(data: StatusData): (r: Result<bool, Error>)
    ensures "status" !in data ==> r == Failure(KeyError("status"))
    ensures "status" in data ==> r.Success?
    ensures "status" in data ==>
      (!r.value <==> data["status"] in {Some(IntVal(0)), Some(IntVal(1)), Some(IntVal(6)), Some(IntVal(9)),
                                        Some(BoolVal(false)), Some(BoolVal(true))})
  {
    if "status" !in data then Failure(KeyError("status"))
    else Success(AsInt(data["status"]) !in {Some(0), Some(1), Some(6), Some(9)})
  }

  /** `status`: the raw status if it is a Status value, else -1; never raises for a present key. */
  function StatusValue(data: StatusData): (r: Result<int, Error>)
    ensures "status" !in data ==> r == Failure(KeyError("status"))
    ensures "status" in data && Between(AsInt(data["status"]), -1, 14) ==> r == Success(AsInt(data["status"]).value)
    ensures "status" in data && !Between(AsInt(data["status"]), -1, 14) ==> r == Success(-1)
  {
    if "status" !in data then Failure(KeyError("status"))
    else
      match StatusLookup(data["status"])
      case Some(s) => Success(s.Value())
      case None => Success(Status.Unknown.Value())
  }

  /**
   * `is_on` reads the raw status, yet it always agrees with the decoded one:
   * off exactly for Shutdown, Standby, Cooked and Pause2, and on for a value
   * the decoder does not recognise.
   */
  lemma IsOnMatchesDecodedStatus(data: StatusData)
    requires "status" in data
    ensures IsOn(data) == Success(StatusValue(data).value !in {0, 1, 6, 9})
    ensures StatusValue(data) == Success(-1) ==> IsOn(data) == Success(true)
  {
  }

  /** `device_fault`: the raw fault if it is a DeviceFault value, else -1. */
  function DeviceFaultValue(data: StatusData): (r: Result<int, Error>)
    ensures "device_fault" !in data ==> r == Failure(KeyError("device_fault"))
    ensures "device_fault" in data && Between(AsInt(data["device_fault"]), -1, 3) ==> r == Success(AsInt(data["device_fault"]).value)
    ensures "device_fault" in data && !Between(AsInt(data["device_fault"]), -1, 3) ==> r == Success(-1)
  {
    if "device_fault" !in data then Failure(KeyError("device_fault"))
    else
      match AsInt(data["device_fault"])
      case Some(v) =>
        (match DeviceFaultOf(v)
         case Some(f) => Success(f.Value())
         case None => Success(DeviceFault.Unknown.Value()))
      case None => Success(DeviceFault.Unknown.Value())
  }

  /** `preheat_switch`: the raw switch if it is a PreheatSwitch value, else -1. */
  function PreheatSwitchValue(data: StatusData): (r: Result<int, Error>)
    ensures "preheat_switch" !in data ==> r == Failure(KeyError("preheat_switch"))
    ensures "preheat_switch" in data && Between(AsInt(data["preheat_switch"]), -1, 2) ==> r == Success(AsInt(data["preheat_switch"]).value)
    ensures "preheat_switch" in data && !Between(AsInt(data["preheat_switch"]), -1, 2) ==> r == Success(-1)
  {
    if "preheat_switch" !in data then Failure(KeyError("preheat_switch"))
    else
      match AsInt(data["preheat_switch"])
      case Some(v) =>
        (match PreheatSwitchOf(v)
         case Some(p) => Success(p.Value())
         case None => Success(PreheatSwitch.Unknown.Value()))
      case None => Success(PreheatSwitch.Unknown.Value())
  }

  /**
   * `food_quanty`: the member of the raw value, falling back to Single (not
   * Unknown) on anything else, so Unknown comes only from a raw -1.
   */
  function FoodQuantyValue(data: StatusData): (r: Result<FoodQuanty, Error>)
    ensures "food_quanty" !in data ==> r == Failure(KeyError("food_quanty"))
    ensures "food_quanty" in data && Between(AsInt(data["food_quanty"]), -1, 4) ==> r.Success? && r.value.Value() == AsInt(data["food_quanty"]).value
    ensures "food_quanty" in data && !Between(AsInt(data["food_quanty"]), -1, 4) ==> r == Success(FoodQuanty.Single)
    ensures r == Success(FoodQuanty.Unknown) ==> data["food_quanty"] == Some(IntVal(-1))
  {
    if "food_quanty" !in data then Failure(KeyError("food_quanty"))
    else
      match AsInt(data["food_quanty"])
      case Some(v) =>
        (match FoodQuantyOf(v)
         case Some(q) => Success(q)
         case None => Success(FoodQuanty.Single))
      case None => Success(FoodQuanty.Single)
  }

  /** `turn_pot`: the member of the raw value, Unknown on anything else. */
  function TurnPotValue(data: StatusData): (r: Result<TurnPot, Error>)
    ensures "turn_pot" !in data ==> r == Failure(KeyError("turn_pot"))
    ensures "turn_pot" in data && Between(AsInt(data["turn_pot"]), -1, 2) ==> r.Success? && r.value.Value() == AsInt(data["turn_pot"]).value
    ensures "turn_pot" in data && !Between(AsInt(data["turn_pot"]), -1, 2) ==> r == Success(TurnPot.Unknown)
  {
    if "turn_pot" !in data then Failure(KeyError("turn_pot"))
    else
      match AsInt(data["turn_pot"])
      case Some(v) =>
        (match TurnPotOf(v)
         case Some(t) => Success(t)
         case None => Success(TurnPot.Unknown))
      case None => Success(TurnPot.Unknown)
  }

  /**
   * The plain accessors `target_time`, `target_temperature`, `left_time`,
   * `recipe_id`, `appoint_time` and `appoint_time_left`: the raw entry, None
   * for a failed read, KeyError for a key the batch lacked.
   */
  function RawField(data: StatusData, key: string): (r: Result<Option<Value>, Error>)
    ensures r.Success? <==> key in data
    ensures r.Success? ==> r.value == data[key]
    ensures r.Failure? ==> r.error == KeyError(key)
  {
    if key in data then Success(data[key]) else Failure(KeyError(key))
  }

  function TargetTime(data: StatusData): Result<Option<Value>, Error> { RawField(data, "target_time") }
  function TargetTemperature(data: StatusData): Result<Option<Value>, Error> { RawField(data, "target_temperature") }
  function LeftTime(data: StatusData): Result<Option<Value>, Error> { RawField(data, "left_time") }
  function RecipeIdValue(data: StatusData): Result<Option<Value>, Error> { RawField(data, "recipe_id") }
  function AppointTime(data: StatusData): Result<Option<Value>, Error> { RawField(data, "appoint_time") }
  function AppointTimeLeft(data: StatusData): Result<Option<Value>, Error> { RawField(data, "appoint_time_left") }

  /** `RecipeId(raw).name`: the preset member whose token the raw value is. */
  function RecipeMember(raw: Option<Value>): Option<string> {
    match raw
    case Some(StrVal(t)) => Recipes.MemberOfToken(t)
    case _ => None
  }

  /** The raw recipe id is one of the eight preset tokens. */
  predicate IsToken(raw: Option<Value>) {
    raw.Some? && raw.value.StrVal? && raw.value.s in Recipes.Tokens
  }

  /**
   * `recipe_name` as written: `RecipeName(member_name)` looks the member NAME
   * up among RecipeName's VALUES (the display strings) and so never finds it.
   */
  function RecipeNameAsWritten(data: StatusData): (r: Result<string, Error>)
    ensures "recipe_id" !in data ==> r == Failure(KeyError("recipe_id"))
    ensures "recipe_id" in data && !IsToken(data["recipe_id"]) ==> r == Failure(ValueError("RecipeId", data["recipe_id"]))
  {
    if "recipe_id" !in data then Failure(KeyError("recipe_id"))
    else
      match RecipeMember(data["recipe_id"])
      case None => Failure(ValueError("RecipeId", data["recipe_id"]))
      case Some(name) =>
        match KeyOf(Recipes.RecipeName, name)
        case None => Failure(ValueError("RecipeName", Some(StrVal(name))))
        case Some(_) => Success(name)
  }

  /** The as-written `recipe_name` raises for every status, including every preset token. */
  lemma RecipeNameAsWrittenAlwaysFails(data: StatusData)
    ensures RecipeNameAsWritten(data).Failure?
    ensures "recipe_id" in data && IsToken(data["recipe_id"]) ==>
      RecipeNameAsWritten(data).error.ValueError? && RecipeNameAsWritten(data).error.enumName == "RecipeName"
  {
    if "recipe_id" in data && RecipeMember(data["recipe_id"]).Some? {
      var name := RecipeMember(data["recipe_id"]).value;
      var token := data["recipe_id"].value.s;
      assert (name, token) in Recipes.RecipeId;
      Recipes.MemberNamesAreNotDisplayNames(name, token);
    }
  }

  /** For recipe id "M0" the code as written raises, where "Ручной" was meant. */
  lemma RecipeNameManual()
    ensures var data := map["recipe_id" := Some(StrVal("M0"))];
      && RecipeNameAsWritten(data) == Failure(ValueError("RecipeName", Some(StrVal("Manual"))))
      && RecipeName(data) == Success("Ручной")
  {
    KeyOfFirst(Recipes.RecipeId, "M0", 0);
    GetFirst(Recipes.RecipeName, "Manual", 0);
    Recipes.MemberNamesAreNotDisplayNames("Manual", "M0");
  }

  /**
   * `recipe_name` as intended, `RecipeName[member_name].value`: the display
   * name of the preset whose token the raw recipe id is; any other raw value
   * raises ValueError, as `RecipeId(raw)` does.
   */
  function RecipeName(data: StatusData): (r: Result<string, Error>)
    ensures "recipe_id" !in data ==> r == Failure(KeyError("recipe_id"))
    ensures "recipe_id" in data ==> (r.Success? <==> IsToken(data["recipe_id"]))
    ensures "recipe_id" in data && !IsToken(data["recipe_id"]) ==> r == Failure(ValueError("RecipeId", data["recipe_id"]))
    ensures r.Success? ==> exists name :: (name, data["recipe_id"].value.s) in Recipes.RecipeId && (name, r.value) in Recipes.RecipeName
  {
    if "recipe_id" !in data then Failure(KeyError("recipe_id"))
    else
      match RecipeMember(data["recipe_id"])
      case None => Failure(ValueError("RecipeId", data["recipe_id"]))
      case Some(name) =>
        Recipes.TablesJoinByName(name, data["recipe_id"].value.s);
        match Get(Recipes.RecipeName, name)
        case Some(display) => Success(display)
        case None => Failure(KeyError(name))
  }

  /**
   * A failed read stores None under its did, and the decoders of that field
   * fall back (-1, Single, Unknown; True for is_on) instead of raising. That
   * the other records keep their own readings is CollectDistinct.
   */
  lemma {:induction false} FailedReadFallsBack(batch: seq<PropertyResult>, i: int)
    requires 0 <= i < |batch| && batch[i].code != 0
    requires forall j :: i < j < |batch| ==> batch[j].did != batch[i].did
    ensures var data := Collect(batch); var k := batch[i].did;
      && (k == "status" ==> StatusValue(data) == Success(-1) && IsOn(data) == Success(true))
      && (k == "device_fault" ==> DeviceFaultValue(data) == Success(-1))
      && (k == "preheat_switch" ==> PreheatSwitchValue(data) == Success(-1))
      && (k == "food_quanty" ==> FoodQuantyValue(data) == Success(FoodQuanty.Single))
      && (k == "turn_pot" ==> TurnPotValue(data) == Success(TurnPot.Unknown))
      && (k == "recipe_id" ==> RecipeName(data) == Failure(ValueError("RecipeId", None)))
      && RawField(data, k) == Success(None)
  {
    CollectLastWins(batch, i);
  }

  /** Every property of the schema has a record in the batch. */
  predicate AnswersAllProperties(batch: seq<PropertyResult>) {
    forall k :: 0 <= k < |Mapping.MiotMapping| && Mapping.MiotMapping[k].1.Property? ==>
      exists i :: 0 <= i < |batch| && batch[i].did == Mapping.MiotMapping[k].0
  }

  /** Such a batch gives the status dictionary a key for every property the views read. */
  lemma CompleteBatchKeys(batch: seq<PropertyResult>)
    requires AnswersAllProperties(batch)
    ensures var data := Collect(batch);
      && "status" in data && "device_fault" in data && "target_time" in data
      && "target_temperature" in data && "left_time" in data && "recipe_id" in data
      && "appoint_time" in data && "food_quanty" in data && "preheat_switch" in data
      && "appoint_time_left" in data && "turn_pot" in data
  {
    CookingStateKeys(batch);
    CookingProgressKeys(batch);
    RecipeSettingsKeys(batch);
    RecipeSwitchKeys(batch);
  }

  /** The first properties of service 2: the state and fault of the fryer and the cooking targets. */
  lemma CookingStateKeys(batch: seq<PropertyResult>)
    requires AnswersAllProperties(batch)
    ensures var data := Collect(batch); "status" in data && "device_fault" in data && "target_time" in data
  {
    AnsweredPropertyPresent(batch, 0, "status");
    AnsweredPropertyPresent(batch, 1, "device_fault");
    AnsweredPropertyPresent(batch, 2, "target_time");
  }

  /** The rest of service 2: the target temperature and the time left. */
  lemma CookingProgressKeys(batch: seq<PropertyResult>)
    requires AnswersAllProperties(batch)
    ensures var data := Collect(batch); "target_temperature" in data && "left_time" in data
  {
    AnsweredPropertyPresent(batch, 3, "target_temperature");
    AnsweredPropertyPresent(batch, 4, "left_time");
  }

  /** The recipe settings of service 3: the preset, the appointment and the quantity. */
  lemma RecipeSettingsKeys(batch: seq<PropertyResult>)
    requires AnswersAllProperties(batch)
    ensures var data := Collect(batch); "recipe_id" in data && "appoint_time" in data && "food_quanty" in data
  {
    AnsweredPropertyPresent(batch, 5, "recipe_id");
    AnsweredPropertyPresent(batch, 7, "appoint_time");
    AnsweredPropertyPresent(batch, 8, "food_quanty");
  }

  /** The remaining views of service 3: preheating, the appointment countdown and pot turning. */
  lemma RecipeSwitchKeys(batch: seq<PropertyResult>)
    requires AnswersAllProperties(batch)
    ensures var data := Collect(batch); "preheat_switch" in data && "appoint_time_left" in data && "turn_pot" in data
  {
    AnsweredPropertyPresent(batch, 9, "preheat_switch");
    AnsweredPropertyPresent(batch, 10, "appoint_time_left");
    AnsweredPropertyPresent(batch, 12, "turn_pot");
  }

  lemma AnsweredPropertyPresent(batch: seq<PropertyResult>, k: int, name: string)
    requires AnswersAllProperties(batch)
    requires 0 <= k < |Mapping.MiotMapping| && Mapping.MiotMapping[k] == (name, Mapping.MiotMapping[k].1)
    requires Mapping.MiotMapping[k].1.Property?
    ensures name in Collect(batch)
  {
    var i :| 0 <= i < |batch| && batch[i].did == name;
  }

  /**
   * A batch that answers every property of the schema decodes without any
   * exception in every view except `recipe_name`: the corrected one needs a
   * preset token, and the one as written raises anyway.
   */
  lemma CompleteBatchDecodes(batch: seq<PropertyResult>)
    requires AnswersAllProperties(batch)
    ensures var data := Collect(batch);
      && IsOn(data).Success? && StatusValue(data).Success? && DeviceFaultValue(data).Success?
      && FoodQuantyValue(data).Success? && PreheatSwitchValue(data).Success? && TurnPotValue(data).Success?
      && TargetTime(data).Success? && TargetTemperature(data).Success? && LeftTime(data).Success?
      && RecipeIdValue(data).Success? && AppointTime(data).Success? && AppointTimeLeft(data).Success?
      && (RecipeName(data).Success? <==> IsToken(data["recipe_id"]))
      && RecipeNameAsWritten(data).Failure?
  {
    CompleteBatchKeys(batch);
    RecipeNameAsWrittenAlwaysFails(Collect(batch));
  }
}
