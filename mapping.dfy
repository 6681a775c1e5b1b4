/**
 * MIOT_MAPPING: the fixed schema from symbolic names to MIoT addresses of the
 * careli air fryer. A property is addressed by (siid, piid), an action by
 * (siid, aiid).
 */
module Mapping {
  import opened Wrappers
  import opened Tables

  datatype Address = Property(siid: nat, piid: nat) | Action(siid: nat, aiid: nat)

  /** The dict literal, entries in declaration order. */
  const MiotMapping: seq<(string, Address)> := [
    ("status", Property(2, 1)),
    ("device_fault", Property(2, 2)),
    ("target_time", Property(2, 3)),
    ("target_temperature", Property(2, 4)),
    ("left_time", Property(2, 5)),
    ("recipe_id", Property(3, 1)),
    ("recipe_name", Property(3, 2)),
    ("appoint_time", Property(3, 5)),
    ("food_quanty", Property(3, 6)),
    ("preheat_switch", Property(3, 7)),
    ("appoint_time_left", Property(3, 8)),
    ("recipe_sync", Property(3, 9)),
    ("turn_pot", Property(3, 10)),
    ("start_cook", Action(2, 1)),
    ("cancel_cooking", Action(2, 2)),
    ("pause", Action(2, 3)),
    ("start_custom_cook", Action(3, 1)),
    ("resume_cooking", Action(3, 2))
  ]

  /** `MIOT_MAPPING[name]`: None where Python raises KeyError. */
  function Lookup(name: string): Option<Address> {
    Get(MiotMapping, name)
  }

  /** The names whose entry carries a piid, in declaration order. */
  function PropertyNames(entries: seq<(string, Address)>): (r: seq<string>)
    ensures forall i :: 0 <= i < |entries| && entries[i].1.Property? ==> entries[i].0 in r
    ensures forall n :: n in r ==> exists i :: 0 <= i < |entries| && entries[i].0 == n && entries[i].1.Property?
  {
    if |entries| == 0 then []
    else (if entries[0].1.Property? then [entries[0].0] else []) + PropertyNames(entries[1..])
  }

  /** The names whose entry carries an aiid, in declaration order. */
  function ActionNames(entries: seq<(string, Address)>): (r: seq<string>)
    ensures forall i :: 0 <= i < |entries| && entries[i].1.Action? ==> entries[i].0 in r
    ensures forall n :: n in r ==> exists i :: 0 <= i < |entries| && entries[i].0 == n && entries[i].1.Action?
  {
    if |entries| == 0 then []
    else (if entries[0].1.Action? then [entries[0].0] else []) + ActionNames(entries[1..])
  }

  /**
   * Counting the property and action names of a table whose first `k` entries
   * are the properties and whose others are the actions.
   */
  lemma {:induction false} NamesOfSplitTable(entries: seq<(string, Address)>, k: nat)
    requires k <= |entries|
    requires forall i :: 0 <= i < |entries| ==> (entries[i].1.Property? <==> i < k)
    ensures |PropertyNames(entries)| == k && |ActionNames(entries)| == |entries| - k
  {
    if |entries| > 0 {
      NamesOfSplitTable(entries[1..], if k > 0 then k - 1 else 0);
    }
  }

  /** The schema has 18 entries and no name occurs twice. */
  lemma MappingNamesDistinct()
    ensures |MiotMapping| == 18
    ensures forall i, j :: 0 <= i < j < |MiotMapping| ==> MiotMapping[i].0 != MiotMapping[j].0
  {
  }

  /** Exactly 13 names carry a piid and 5 carry an aiid. */
  lemma MappingCounts()
    ensures |PropertyNames(MiotMapping)| == 13 && |ActionNames(MiotMapping)| == 5
  {
    NamesOfSplitTable(MiotMapping, 13);
  }

  /** No two properties (nor two actions) share an address. */
  lemma MappingAddressesDistinct()
    ensures forall i, j :: 0 <= i < j < |MiotMapping| ==> MiotMapping[i].1 != MiotMapping[j].1
  {
  }

  /** Resolving a name that no earlier entry carries gives the address of its entry. */
  lemma LookupAt(i: int, name: string)
    requires 0 <= i < |MiotMapping| && MiotMapping[i].0 == name
    requires forall k :: 0 <= k < i ==> MiotMapping[k].0 != name
    ensures Lookup(name) == Some(MiotMapping[i].1)
  {
    GetFirst(MiotMapping, name, i);
  }

  // The addresses the setters write and the actions call, one name at a time.

  lemma LookupTargetTime()
    ensures Lookup("target_time") == Some(Property(2, 3))
  {
    LookupAt(2, "target_time");
  }

  lemma LookupTargetTemperature()
    ensures Lookup("target_temperature") == Some(Property(2, 4))
  {
    LookupAt(3, "target_temperature");
  }

  lemma LookupRecipeId()
    ensures Lookup("recipe_id") == Some(Property(3, 1))
  {
    LookupAt(5, "recipe_id");
  }

  lemma LookupAppointTime()
    ensures Lookup("appoint_time") == Some(Property(3, 5))
  {
    LookupAt(7, "appoint_time");
  }

  lemma LookupFoodQuanty()
    ensures Lookup("food_quanty") == Some(Property(3, 6))
  {
    LookupAt(8, "food_quanty");
  }

  lemma LookupStartCook()
    ensures Lookup("start_cook") == Some(Action(2, 1))
  {
    LookupAt(13, "start_cook");
  }

  lemma LookupCancelCooking()
    ensures Lookup("cancel_cooking") == Some(Action(2, 2))
  {
    LookupAt(14, "cancel_cooking");
  }

  lemma LookupPause()
    ensures Lookup("pause") == Some(Action(2, 3))
  {
    LookupAt(15, "pause");
  }

  lemma LookupStartCustomCook()
    ensures Lookup("start_custom_cook") == Some(Action(3, 1))
  {
    LookupAt(16, "start_custom_cook");
  }

  lemma LookupResumeCooking()
    ensures Lookup("resume_cooking") == Some(Action(3, 2))
  {
    LookupAt(17, "resume_cooking");
  }
}
