/**
 * The target-framework option: the framework/channel table, the list of
 * frameworks the host supports, and the argparse action that checks the
 * `--frameworks` values and stores them without duplicates.
 */
module Frameworks {
  import opened Wrappers
  import opened Text

  /** The framework-to-channel dictionary, in its insertion order. */
  const ChannelTable: seq<(string, string)> := [
    ("netcoreapp3.0", "master"),
    ("netcoreapp2.2", "2.2"),
    ("netcoreapp2.1", "2.1"),
    ("netcoreapp2.0", "2.0")
  ]

  /** The framework that is supported on Windows only. */
  const WindowsOnlyFramework := "net461"

  /** `list(dict.keys())`: the keys of a table, in its order. */
  function Keys(table: seq<(string, string)>): (keys: seq<string>)
    ensures |keys| == |table|
    ensures forall i :: 0 <= i < |table| ==> keys[i] == table[i].0
  {
    if table == [] then [] else [table[0].0] + Keys(table[1..])
  }

  /** `dct[key] if key in dct else None`, on a table whose keys are distinct. */
  function Lookup(table: seq<(string, string)>, key: string): (r: Option<string>)
    ensures r.Some? <==> key in Keys(table)
    ensures r.Some? ==> (key, r.value) in table
  {
    if table == [] then None
    else if table[0].0 == key then Some(table[0].1)
    else Lookup(table[1..], key)
  }

  /** The frameworks the host accepts: the channel table's keys, plus net461 on win32. */
  function SupportedTargetFrameworks(platform: string): seq<string>
  {
    var keys := Keys(ChannelTable);
    if platform == "win32" then keys + [WindowsOnlyFramework] else keys
  }

  /** The keys of the channel table, in order. */
  lemma ChannelKeys()
    ensures Keys(ChannelTable) == ["netcoreapp3.0", "netcoreapp2.2", "netcoreapp2.1", "netcoreapp2.0"]
  {
    var keys := Keys(ChannelTable);
    assert |keys| == 4;
    assert keys[0] == "netcoreapp3.0" && keys[1] == "netcoreapp2.2";
    assert keys[2] == "netcoreapp2.1" && keys[3] == "netcoreapp2.0";
  }

  /** The supported list, spelled out: the four netcoreapp keys in table order, then net461 on win32 only. */
  lemma SupportedTable(platform: string)
    ensures SupportedTargetFrameworks(platform) ==
      ["netcoreapp3.0", "netcoreapp2.2", "netcoreapp2.1", "netcoreapp2.0"] +
      (if platform == "win32" then [WindowsOnlyFramework] else [])
  {
    ChannelKeys();
  }

  /** The supported list always holds the four netcoreapp keys, and holds net461 iff the host is win32. */
  lemma SupportedProperties(platform: string)
    ensures var frameworks := SupportedTargetFrameworks(platform);
      "netcoreapp3.0" in frameworks && "netcoreapp2.2" in frameworks &&
      "netcoreapp2.1" in frameworks && "netcoreapp2.0" in frameworks
    ensures WindowsOnlyFramework in SupportedTargetFrameworks(platform) <==> platform == "win32"
  {
    SupportedTable(platform);
    var keys := ["netcoreapp3.0", "netcoreapp2.2", "netcoreapp2.1", "netcoreapp2.0"];
    assert forall i :: 0 <= i < |keys| ==> |keys[i]| != |WindowsOnlyFramework|;
  }

  /** The five framework names are pairwise distinct. */
  lemma FrameworkNamesDistinct()
    ensures NoDuplicates(["netcoreapp3.0", "netcoreapp2.2", "netcoreapp2.1", "netcoreapp2.0", WindowsOnlyFramework])
  {
    var names := ["netcoreapp3.0", "netcoreapp2.2", "netcoreapp2.1", "netcoreapp2.0", WindowsOnlyFramework];
    assert names[0][10] == '3' && names[1][10] == '2' && names[2][10] == '2' && names[3][10] == '2';
    assert names[1][12] == '2' && names[2][12] == '1' && names[3][12] == '0';
    assert |names[4]| == 6 && |names[0]| == |names[1]| == |names[2]| == |names[3]| == 13;
  }

  /** The supported list repeats nothing. */
  lemma SupportedNoDuplicates(platform: string)
    ensures NoDuplicates(SupportedTargetFrameworks(platform))
  {
    SupportedTable(platform);
    FrameworkNamesDistinct();
    var names := ["netcoreapp3.0", "netcoreapp2.2", "netcoreapp2.1", "netcoreapp2.0", WindowsOnlyFramework];
    assert names[..4] == ["netcoreapp3.0", "netcoreapp2.2", "netcoreapp2.1", "netcoreapp2.0"];
  }

  /** `get_supported_target_frameworks`: the table's keys, then net461 appended on win32. */
  method GetSupportedTargetFrameworks(platform: string) returns (frameworks: seq<string>)
    ensures frameworks == SupportedTargetFrameworks(platform)
  {
    frameworks := Keys(ChannelTable);
    if platform == "win32" {
      frameworks := frameworks + [WindowsOnlyFramework];
    }
  }

  /** A framework is supported exactly when it has a channel, or it is net461 on win32. */
  lemma SupportedMembers(platform: string, framework: string)
    ensures framework in SupportedTargetFrameworks(platform) <==>
      framework in Keys(ChannelTable) || (platform == "win32" && framework == WindowsOnlyFramework)
  {
    SupportedTable(platform);
    ChannelKeys();
  }

  /** The download channel of a framework, or None when the table has no entry for it. */
  function GetChannel(framework: string): (channel: Option<string>)
    ensures channel.Some? <==> framework in Keys(ChannelTable)
    ensures channel.Some? ==> (framework, channel.value) in ChannelTable
  {
    Lookup(ChannelTable, framework)
  }

  /** The channels of the four keys, and none for net461. */
  lemma ChannelValues()
    ensures GetChannel("netcoreapp3.0") == Some("master")
    ensures GetChannel("netcoreapp2.2") == Some("2.2")
    ensures GetChannel("netcoreapp2.1") == Some("2.1")
    ensures GetChannel("netcoreapp2.0") == Some("2.0")
    ensures GetChannel(WindowsOnlyFramework) == None
  {
    ChannelKeys();
  }

  /** Every supported framework has a channel except the Windows-only one. */
  lemma SupportedChannels(platform: string, framework: string)
    requires framework in SupportedTargetFrameworks(platform)
    ensures GetChannel(framework).None? <==> framework == WindowsOnlyFramework
  {
    SupportedTable(platform);
    ChannelKeys();
  }

  /** The values that are not supported, in input order, duplicates kept. */
  function Rejects(values: seq<string>, supported: seq<string>): (wrong: seq<string>)
    ensures |wrong| <= |values|
  {
    if values == [] then []
    else (if values[0] in supported then [] else [values[0]]) + Rejects(values[1..], supported)
  }

  /** A value is rejected exactly when it was supplied and is not supported. */
  lemma {:induction false} RejectsMembers(values: seq<string>, supported: seq<string>, v: string)
    ensures v in Rejects(values, supported) <==> v in values && v !in supported
  {
    if values != [] {
      RejectsMembers(values[1..], supported, v);
      assert v in values <==> v == values[0] || v in values[1..];
    }
  }

  /** Rejecting a concatenation rejects each part in turn, so input order is kept. */
  lemma {:induction false} RejectsAppend(a: seq<string>, b: seq<string>, supported: seq<string>)
    ensures Rejects(a + b, supported) == Rejects(a, supported) + Rejects(b, supported)
  {
    if a == [] {
      assert a + b == b;
    } else {
      assert (a + b)[0] == a[0];
      assert (a + b)[1..] == a[1..] + b;
      RejectsAppend(a[1..], b, supported);
    }
  }

  /** A value supplied n times is rejected n times: rejects are not deduplicated. */
  lemma {:induction false} RejectsKeepsRepeats(v: string, values: seq<string>, supported: seq<string>)
    requires v !in supported
    ensures Rejects([v] + values + [v], supported) == [v] + Rejects(values, supported) + [v]
  {
    RejectsAppend([v] + values, [v], supported);
    RejectsAppend([v], values, supported);
  }

  const InvalidChoicePrefix := "Invalid choice(s): "

  function InvalidChoicesMessage(wrong: seq<string>): string
  {
    InvalidChoicePrefix + Join(wrong, ", ")
  }

  /** The error message names every rejected value, each at its own place. */
  lemma InvalidMessageNamesEveryReject(wrong: seq<string>, k: nat)
    requires k < |wrong|
    ensures var off := |InvalidChoicePrefix| + JoinOffset(wrong, ", ", k);
      off + |wrong[k]| <= |InvalidChoicesMessage(wrong)| &&
      InvalidChoicesMessage(wrong)[off..off + |wrong[k]|] == wrong[k]
  {
    PrefixedJoinContainsPart(InvalidChoicePrefix, wrong, ", ", k);
  }

  /** `list(set(values))`: the distinct values, in an order Python leaves unspecified. */
  method ListOfSet(values: seq<string>) returns (stored: seq<string>)
    ensures NoDuplicates(stored)
    ensures Elements(stored) == Elements(values)
  {
    var remaining := Elements(values);
    stored := [];
    while remaining != {}
      invariant NoDuplicates(stored)
      invariant forall x :: x in remaining ==> x !in stored
      invariant Elements(stored) + remaining == Elements(values)
      decreases |remaining|
    {
      var x :| x in remaining;
      stored := stored + [x];
      remaining := remaining - {x};
    }
  }

  /** What the action leaves behind: nothing, a stored framework list, or an argparse error. */
  datatype ActionOutcome =
    | Unset
    | Stored(frameworks: seq<string>)
    | Rejected(message: string)

  /**
   * `TargetFrameworkAction.__call__`: collect every unsupported value into
   * one error, otherwise store the values as `list(set(values))`, whose order
   * Python leaves unspecified (hence the choice of the next element with `:|`).
   */
  method TargetFrameworkAction(values: seq<string>, platform: string) returns (outcome: ActionOutcome)
    ensures outcome.Unset? <==> values == []
    ensures outcome.Rejected? <==> exists v :: v in values && v !in SupportedTargetFrameworks(platform)
    ensures outcome.Rejected? ==>
      outcome.message == InvalidChoicesMessage(Rejects(values, SupportedTargetFrameworks(platform)))
    ensures outcome.Stored? ==> NoDuplicates(outcome.frameworks)
    ensures outcome.Stored? ==> Elements(outcome.frameworks) == Elements(values)
  {
    if values == [] {
      return Unset;
    }
    var wrongChoices: seq<string> := [];
    var supported := GetSupportedTargetFrameworks(platform);
    for i := 0 to |values|
      invariant wrongChoices == Rejects(values[..i], supported)
    {
      if values[i] !in supported {
        wrongChoices := wrongChoices + [values[i]];
      }
      assert values[..i + 1] == values[..i] + [values[i]];
      RejectsAppend(values[..i], [values[i]], supported);
    }
    assert values[..|values|] == values;
    if wrongChoices != [] {
      RejectsMembers(values, supported, wrongChoices[0]);
      return Rejected(InvalidChoicesMessage(wrongChoices));
    }
    forall v | v in values
      ensures v in supported
    {
      RejectsMembers(values, supported, v);
    }
    var stored := ListOfSet(values);
    return Stored(stored);
  }

  /**
   * Two unsupported values around a supported one (as in `bogus1
   * netcoreapp3.0 bogus2`): both are reported, in input order.
   */
  lemma TwoBogusValuesReported(platform: string, bogus1: string, valid: string, bogus2: string)
    requires valid in SupportedTargetFrameworks(platform)
    requires bogus1 !in SupportedTargetFrameworks(platform) && bogus2 !in SupportedTargetFrameworks(platform)
    ensures Rejects([bogus1, valid, bogus2], SupportedTargetFrameworks(platform)) == [bogus1, bogus2]
  {
    var s := SupportedTargetFrameworks(platform);
    var input := [bogus1, valid, bogus2];
    assert input[1..] == [valid, bogus2] && input[1..][1..] == [bogus2] && input[1..][1..][1..] == [];
    assert Rejects([bogus2], s) == [bogus2] + Rejects([], s);
    assert Rejects(input[1..], s) == [] + Rejects([bogus2], s);
    assert Rejects(input, s) == [bogus1] + Rejects(input[1..], s);
  }

  /** The message for the two bogus values names both, separated by a comma. */
  lemma TwoBogusValuesMessage()
    ensures InvalidChoicesMessage(["bogus1", "bogus2"]) == InvalidChoicePrefix + "bogus1" + ", " + "bogus2"
  {
    assert Join(["bogus1", "bogus2"], ", ") == "bogus1" + ", " + "bogus2";
  }
}
