/**
 * The command side of FryerMiot: the range-checked setters, the argument-less
 * actions and `start_custom_cook`. Each yields the one request it would hand
 * to the transport (`set_property` or `call_action`) or the exception it
 * raises before any request is made.
 */
module Commands {
  import opened Wrappers
  import opened Wire
  import opened Mapping
  import opened Tables
  import opened Recipes
  import StatusDecoder
  import Enums
  import Text

  /** `set_property(name, value)` or `call_action(name, params)`. */
  datatype Request = SetProperty(name: string, value: Value) | CallAction(name: string, params: Option<string>)

  /** `appoint_time(hours)`: minutes in 0..1440 are written to appoint_time (3, 5). */
  function SetAppointTime(hours: int): (r: Result<Request, Error>)
    ensures r.Success? <==> 0 <= hours <= 1440
    ensures r.Success? ==> r.value == SetProperty("appoint_time", IntVal(hours)) && Lookup(r.value.name) == Some(Property(3, 5))
    ensures r.Failure? ==> r.error == DeviceException("appoint_time", hours)
  {
    LookupAppointTime();
    if hours < 0 || hours > 24 * 60 then Failure(DeviceException("appoint_time", hours))
    else Success(SetProperty("appoint_time", IntVal(hours)))
  }

  /** `recipe_id(recipe_id)`: any string is written to recipe_id (3, 1), unchecked. */
  function SetRecipeId(recipeId: string): (r: Result<Request, Error>)
    ensures r == Success(SetProperty("recipe_id", StrVal(recipeId)))
    ensures Lookup(r.value.name) == Some(Property(3, 1))
  {
    LookupRecipeId();
    Success(SetProperty("recipe_id", StrVal(recipeId)))
  }

  /** `food_quanty(food_quanty)`: codes 0..5 are written to food_quanty (3, 6). */
  function SetFoodQuanty(foodQuanty: int): (r: Result<Request, Error>)
    ensures r.Success? <==> 0 <= foodQuanty <= 5
    ensures r.Success? ==> r.value == SetProperty("food_quanty", IntVal(foodQuanty)) && Lookup(r.value.name) == Some(Property(3, 6))
    ensures r.Failure? ==> r.error == DeviceException("food_quanty", foodQuanty)
  {
    LookupFoodQuanty();
    if foodQuanty < 0 || foodQuanty > 5 then Failure(DeviceException("food_quanty", foodQuanty))
    else Success(SetProperty("food_quanty", IntVal(foodQuanty)))
  }

  /** `target_time(target_time)`: minutes in 1..1440 (0 is refused) are written to target_time (2, 3). */
  function SetTargetTime(targetTime: int): (r: Result<Request, Error>)
    ensures r.Success? <==> 1 <= targetTime <= 1440
    ensures r.Success? ==> r.value == SetProperty("target_time", IntVal(targetTime)) && Lookup(r.value.name) == Some(Property(2, 3))
    ensures r.Failure? ==> r.error == DeviceException("target_time", targetTime)
  {
    LookupTargetTime();
    if targetTime < 1 || targetTime > 1440 then Failure(DeviceException("target_time", targetTime))
    else Success(SetProperty("target_time", IntVal(targetTime)))
  }

  /** `target_temperature(target_temperature)`: 40..200 degrees are written to target_temperature (2, 4). */
  function SetTargetTemperature(targetTemperature: int): (r: Result<Request, Error>)
    ensures r.Success? <==> 40 <= targetTemperature <= 200
    ensures r.Success? ==> r.value == SetProperty("target_temperature", IntVal(targetTemperature)) && Lookup(r.value.name) == Some(Property(2, 4))
    ensures r.Failure? ==> r.error == DeviceException("target_temperature", targetTemperature)
  {
    LookupTargetTemperature();
    if targetTemperature < 40 || targetTemperature > 200 then Failure(DeviceException("target_temperature", targetTemperature))
    else Success(SetProperty("target_temperature", IntVal(targetTemperature)))
  }

  /** `start_cook()`: invokes action (2, 1) without parameters. */
  function StartCook(): (r: Request)
    ensures r.CallAction? && r.params.None? && Lookup(r.name) == Some(Action(2, 1))
  {
    LookupStartCook();
    CallAction("start_cook", None)
  }

  /** `cancel_cooking()`: invokes action (2, 2) without parameters. */
  function CancelCooking(): (r: Request)
    ensures r.CallAction? && r.params.None? && Lookup(r.name) == Some(Action(2, 2))
  {
    LookupCancelCooking();
    CallAction("cancel_cooking", None)
  }

  /** `pause()`: invokes action (2, 3) without parameters. */
  function Pause(): (r: Request)
    ensures r.CallAction? && r.params.None? && Lookup(r.name) == Some(Action(2, 3))
  {
    LookupPause();
    CallAction("pause", None)
  }

  /** `resume_cooking()`: invokes action (3, 2) without parameters. */
  function ResumeCooking(): (r: Request)
    ensures r.CallAction? && r.params.None? && Lookup(r.name) == Some(Action(3, 2))
  {
    LookupResumeCooking();
    CallAction("resume_cooking", None)
  }

  /**
   * `start_custom_cook(mode)`: a preset token is resolved to its member's
   * command list, which is comma-joined and sent to action (3, 1). The string
   * starts with the token and an empty name, and a receiver parsing it gets
   * the preset's seven fields back; it is exactly the comma-join of the
   * `str` of each field. Any other token raises ValueError.
   */
  function StartCustomCook(mode: string): (r: Result<Request, Error>)
    ensures r.Success? <==> mode in Tokens
    ensures r.Failure? ==> r.error == ValueError("RecipeId", Some(StrVal(mode)))
    ensures r.Success? ==> r.value.CallAction? && r.value.params.Some? && Lookup(r.value.name) == Some(Action(3, 1))
    ensures r.Success? ==> var s := r.value.params.value;
      |mode| + 2 <= |s| && s[..|mode| + 2] == mode + ",,"
    ensures r.Success? ==>
      exists name :: (name, mode) in RecipeId && ParseCommand(r.value.params.value) == Get(RecipeToCommand, name)
    ensures r.Success? ==>
      exists name :: (name, mode) in RecipeId && Get(RecipeToCommand, name).Some?
        && r.value.params == Some(Serialize(Get(RecipeToCommand, name).value))
  {
    LookupStartCustomCook();
    match CommandOfToken(mode)
    case None => Failure(ValueError("RecipeId", Some(StrVal(mode))))
    case Some(command) =>
      SerializeRoundTrip(command);
      SerializePrefix(command, mode);
      Success(CallAction("start_custom_cook", Some(Serialize(command))))
  }

  /** The French-fries preset goes out as "M1,,15,200,0,3,0". */
  lemma StartCustomCookFrenchFries()
    ensures StartCustomCook("M1") == Success(CallAction("start_custom_cook", Some("M1,,15,200,0,3,0")))
  {
    KeyOfFirst(RecipeId, "M1", 1);
    GetFirst(RecipeToCommand, "FrenchFries", 1);
    FrenchFriesSerialized();
  }

  /**
   * The food-quantity setter accepts 5, which no FoodQuanty member has: a
   * read-back of an accepted code gives its member for 0..4 and falls back to
   * Single for 5.
   */
  lemma FoodQuantyReadBack(code: int)
    requires SetFoodQuanty(code).Success?
    ensures var data := StatusDecoder.Collect([StatusDecoder.PropertyResult("food_quanty", 0, Some(IntVal(code)))]);
      && StatusDecoder.FoodQuantyValue(data).Success?
      && (code <= 4 ==> StatusDecoder.FoodQuantyValue(data).value.Value() == code)
      && (code == 5 ==> StatusDecoder.FoodQuantyValue(data).value == Enums.FoodQuanty.Single)
  {
  }
}
