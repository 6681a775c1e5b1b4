/**
 * The three parallel preset enums, RecipeId, RecipeToCommand and RecipeName,
 * each written as its members (member name, member value) in declaration
 * order. They are joined by member name; the command list of a preset is
 * serialised for the `start_custom_cook` action.
 */
module Recipes {
  import opened Wrappers
  import opened Tables
  import Text

  /** One element of a RecipeToCommand list: a Python str or int. */
  datatype Param = StrParam(s: string) | IntParam(n: int)

  const RecipeId: seq<(string, string)> := [
    ("Manual", "M0"),
    ("FrenchFries", "M1"),
    ("ChickenWing", "M2"),
    ("SweetPotato", "M3"),
    ("Cake", "M4"),
    ("Defrost", "M5"),
    ("DriedFruit", "M6"),
    ("Yogurt", "M7")
  ]

  /** [recipeId, name, targetTime, targetTemperature, appointTime, foodQuantity, preheat] */
  const RecipeToCommand: seq<(string, seq<Param>)> := [
    ("Manual", [StrParam("M0"), StrParam(""), IntParam(0), IntParam(0), IntParam(0), IntParam(0), IntParam(0)]),
    ("FrenchFries", [StrParam("M1"), StrParam(""), IntParam(15), IntParam(200), IntParam(0), IntParam(3), IntParam(0)]),
    ("ChickenWing", [StrParam("M2"), StrParam(""), IntParam(15), IntParam(180), IntParam(0), IntParam(1), IntParam(0)]),
    ("SweetPotato", [StrParam("M3"), StrParam(""), IntParam(30), IntParam(200), IntParam(0), IntParam(1), IntParam(0)]),
    ("Cake", [StrParam("M4"), StrParam(""), IntParam(30), IntParam(160), IntParam(0), IntParam(0), IntParam(0)]),
    ("Defrost", [StrParam("M5"), StrParam(""), IntParam(15), IntParam(40), IntParam(0), IntParam(0), IntParam(0)]),
    ("DriedFruit", [StrParam("M6"), StrParam(""), IntParam(240), IntParam(40), IntParam(0), IntParam(0), IntParam(0)]),
    ("Yogurt", [StrParam("M7"), StrParam(""), IntParam(480), IntParam(40), IntParam(0), IntParam(0), IntParam(0)])
  ]

  const RecipeName: seq<(string, string)> := [
    ("Manual", "Ручной"),
    ("FrenchFries", "Картофель Фри"),
    ("ChickenWing", "Куриные Крылья"),
    ("SweetPotato", "Сладкий картофель"),
    ("Defrost", "Разморозка"),
    ("DriedFruit", "Сухофрукты"),
    ("Yogurt", "Йогурт"),
    ("Cake", "Торт")
  ]

  /** The eight preset tokens. */
  const Tokens: set<string> := {"M0", "M1", "M2", "M3", "M4", "M5", "M6", "M7"}

  /** `RecipeId(token).name`: the member whose value is `token`, if any. */
  function MemberOfToken(token: string): (r: Option<string>)
    ensures r.Some? <==> token in Tokens
    ensures r.Some? ==> (r.value, token) in RecipeId
  {
    KeyOf(RecipeId, token)
  }

  /**
   * `RecipeToCommand[RecipeId(token).name].value`: the command list of the
   * preset whose token is `token`; None where `RecipeId(token)` raises.
   */
  function CommandOfToken(token: string): (r: Option<seq<Param>>)
    ensures r.Some? <==> token in Tokens
    ensures r.Some? ==> WellFormedCommand(r.value) && r.value[0] == StrParam(token) && r.value[1] == StrParam("")
    ensures r.Some? ==> exists name :: (name, token) in RecipeId && Get(RecipeToCommand, name) == r
  {
    match MemberOfToken(token)
    case None => None
    case Some(name) =>
      CommandsWellFormed(name, token);
      Get(RecipeToCommand, name)
  }

  /**
   * The three enums declare the same member names, so joining by name never
   * misses: every RecipeId member has a command list and a display name.
   */
  lemma {:induction false} TablesJoinByName(name: string, token: string)
    requires (name, token) in RecipeId
    ensures Get(RecipeToCommand, name).Some? && Get(RecipeName, name).Some?
  {
    var i :| 0 <= i < |RecipeId| && RecipeId[i] == (name, token);
    assert RecipeToCommand[i].0 == name;
    var j := [0, 1, 2, 3, 7, 4, 5, 6][i];
    assert RecipeName[j].0 == name;
  }

  /** Distinct presets have distinct tokens and distinct display names. */
  lemma TablesInjective()
    ensures forall i, j :: 0 <= i < j < |RecipeId| ==> RecipeId[i].0 != RecipeId[j].0 && RecipeId[i].1 != RecipeId[j].1
    ensures forall i, j :: 0 <= i < j < |RecipeName| ==> RecipeName[i].1 != RecipeName[j].1
  {
  }

  /** No member name is also a display name: looking a member name up among RecipeName's values fails. */
  lemma MemberNamesAreNotDisplayNames(name: string, token: string)
    requires (name, token) in RecipeId
    ensures KeyOf(RecipeName, name).None?
  {
    var i :| 0 <= i < |RecipeId| && RecipeId[i] == (name, token);
    assert forall i, j :: 0 <= i < |RecipeId| && 0 <= j < |RecipeName| ==> RecipeName[j].1 != RecipeId[i].0;
  }

  /** Python's `str(x)` of a list element. */
  function ParamToString(p: Param): string {
    match p
    case StrParam(s) => s
    case IntParam(n) => Text.IntToString(n)
  }

  /** `[str(x) for x in command]`. */
  function ParamStrings(command: seq<Param>): (r: seq<string>)
    ensures |r| == |command|
    ensures forall i :: 0 <= i < |command| ==> r[i] == ParamToString(command[i])
  {
    if |command| == 0 then [] else [ParamToString(command[0])] + ParamStrings(command[1..])
  }

  /** `",".join(str(x) for x in command)`. */
  function Serialize(command: seq<Param>): string {
    Text.Join(ParamStrings(command), ',')
  }

  /**
   * A command list of the documented shape: two strings (the recipe id and the
   * name) followed by five integers, none of the strings holding a comma.
   */
  predicate WellFormedCommand(command: seq<Param>) {
    && |command| == 7
    && command[0].StrParam? && ',' !in command[0].s
    && command[1].StrParam? && ',' !in command[1].s
    && forall k :: 2 <= k < 7 ==> command[k].IntParam?
  }

  /** The serialised string starts with the recipe id and the empty name, each followed by a comma. */
  lemma SerializePrefix(command: seq<Param>, token: string)
    requires WellFormedCommand(command) && command[0] == StrParam(token) && command[1] == StrParam("")
    ensures var s := Serialize(command); |token| + 2 <= |s| && s[..|token| + 2] == token + ",,"
  {
    var parts := ParamStrings(command);
    var rest := Text.Join(parts[2..], ',');
    assert parts[1..][1..] == parts[2..];
    assert Text.Join(parts[1..], ',') == parts[1] + [','] + rest;
    assert Serialize(command) == parts[0] + [','] + (parts[1] + [','] + rest);
    assert Serialize(command) == (token + ",,") + rest;
  }

  /** The French-fries command list renders as "M1,,15,200,0,3,0". */
  lemma FrenchFriesSerialized()
    ensures Serialize(RecipeToCommand[1].1) == "M1,,15,200,0,3,0"
  {
    var command := [StrParam("M1"), StrParam(""), IntParam(15), IntParam(200), IntParam(0), IntParam(3), IntParam(0)];
    assert RecipeToCommand[1].1 == command;
    var parts := ["M1", "", "15", "200", "0", "3", "0"];
    assert ParamStrings(command) == parts by {
      assert Text.IntToString(15) == "15" by {
        assert Text.NatToString(15) == Text.NatToString(1) + [Text.DigitChar(5)];
      }
      assert Text.IntToString(200) == "200" by {
        assert Text.NatToString(20) == Text.NatToString(2) + [Text.DigitChar(0)];
        assert Text.NatToString(200) == Text.NatToString(20) + [Text.DigitChar(0)];
      }
    }
    JoinFrenchFries(parts);
  }

  lemma JoinFrenchFries(parts: seq<string>)
    requires parts == ["M1", "", "15", "200", "0", "3", "0"]
    ensures Text.Join(parts, ',') == "M1,,15,200,0,3,0"
  {
    var j6 := Text.Join(parts[6..], ',');
    assert j6 == "0";
    assert parts[5..][1..] == parts[6..];
    var j5 := Text.Join(parts[5..], ',');
    assert j5 == "3" + [','] + j6;
    assert parts[4..][1..] == parts[5..];
    var j4 := Text.Join(parts[4..], ',');
    assert j4 == "0" + [','] + j5;
    assert parts[3..][1..] == parts[4..];
    var j3 := Text.Join(parts[3..], ',');
    assert j3 == "200" + [','] + j4;
    assert parts[2..][1..] == parts[3..];
    var j2 := Text.Join(parts[2..], ',');
    assert j2 == "15" + [','] + j3;
    assert parts[1..][1..] == parts[2..];
    var j1 := Text.Join(parts[1..], ',');
    assert j1 == "" + [','] + j2;
    assert Text.Join(parts, ',') == "M1" + [','] + j1;
  }

  /** A receiver's reading of a serialised command of the documented shape. */
  function ParseCommand(s: string): Option<seq<Param>> {
    var fields := Text.Split(s, ',');
    if |fields| != 7 then None
    else
      match (Text.ParseInt(fields[2]), Text.ParseInt(fields[3]), Text.ParseInt(fields[4]),
             Text.ParseInt(fields[5]), Text.ParseInt(fields[6]))
      case (Some(a), Some(b), Some(c), Some(d), Some(e)) =>
        Some([StrParam(fields[0]), StrParam(fields[1]), IntParam(a), IntParam(b), IntParam(c), IntParam(d), IntParam(e)])
      case _ => None
  }

  /** The rendered elements of a well-formed command: no commas, and the integers read back. */
  lemma ParamStringsOfWellFormed(command: seq<Param>)
    requires WellFormedCommand(command)
    ensures var parts := ParamStrings(command);
      && (forall k :: 0 <= k < 7 ==> ',' !in parts[k])
      && (forall k :: 2 <= k < 7 ==> Text.ParseInt(parts[k]) == Some(command[k].n))
  {
    var parts := ParamStrings(command);
    forall k | 2 <= k < 7
      ensures Text.ParseInt(parts[k]) == Some(command[k].n)
    {
      Text.ParseIntToString(command[k].n);
    }
  }

  /** Serialising a well-formed command loses nothing: parsing gives it back. */
  lemma SerializeRoundTrip(command: seq<Param>)
    requires WellFormedCommand(command)
    ensures ParseCommand(Serialize(command)) == Some(command)
  {
    var parts := ParamStrings(command);
    ParamStringsOfWellFormed(command);
    Text.SplitJoin(parts, ',');
    ParseFields(Serialize(command), command, parts);
  }

  /** Fields split from a string that read back as a well-formed command's elements parse to that command. */
  lemma ParseFields(s: string, command: seq<Param>, parts: seq<string>)
    requires WellFormedCommand(command) && Text.Split(s, ',') == parts && |parts| == 7
    requires parts[0] == command[0].s && parts[1] == command[1].s
    requires forall k :: 2 <= k < 7 ==> Text.ParseInt(parts[k]) == Some(command[k].n)
    ensures ParseCommand(s) == Some(command)
  {
    var r := [StrParam(parts[0]), StrParam(parts[1]), IntParam(command[2].n), IntParam(command[3].n),
              IntParam(command[4].n), IntParam(command[5].n), IntParam(command[6].n)];
    assert r == command;
  }

  /** Entry by entry, the command table lists the presets in RecipeId's order, each of the documented shape. */
  lemma CommandTableShape()
    ensures |RecipeToCommand| == |RecipeId|
    ensures forall k :: 0 <= k < |RecipeToCommand| ==>
      && RecipeToCommand[k].0 == RecipeId[k].0
      && WellFormedCommand(RecipeToCommand[k].1)
      && RecipeToCommand[k].1[0] == StrParam(RecipeId[k].1)
      && RecipeToCommand[k].1[1] == StrParam("")
  {
  }

  /**
   * Every RecipeToCommand list has the documented shape, begins with its own
   * RecipeId token and carries an empty name.
   */
  lemma {:induction false} CommandsWellFormed(name: string, token: string)
    requires (name, token) in RecipeId
    ensures Get(RecipeToCommand, name).Some?
    ensures var command := Get(RecipeToCommand, name).value;
      WellFormedCommand(command) && command[0] == StrParam(token) && command[1] == StrParam("")
  {
    var i :| 0 <= i < |RecipeId| && RecipeId[i] == (name, token);
    CommandTableShape();
    TablesInjective();
    GetFirst(RecipeToCommand, name, i);
  }
}
