/**
 * The build configuration option: the fixed list of configurations and the
 * argparse type function that matches its input case-insensitively and
 * returns the canonical spelling.
 */
module Configurations {
  import opened Wrappers
  import opened Text

  function SupportedConfigurations(): seq<string>
  {
    ["Release", "Debug"]
  }

  /** `get_supported_configurations`: exactly Release and Debug, Release first, no repeats. */
  lemma SupportedConfigurationsFacts()
    ensures |SupportedConfigurations()| == 2 && NoDuplicates(SupportedConfigurations())
    ensures SupportedConfigurations()[0] == "Release"
    ensures forall c :: c in SupportedConfigurations() <==> c == "Release" || c == "Debug"
  {
    assert "Release"[0] != "Debug"[0];
  }

  /** The argparse default: the first supported configuration. */
  function DefaultConfiguration(): string
  {
    SupportedConfigurations()[0]
  }

  function UnknownConfigurationMessage(configuration: string): string
  {
    "Unknown configuration: " + configuration + "."
  }

  /** The first candidate whose casefold equals that of the input. */
  function FirstCasefoldMatch(candidates: seq<string>, input: string): (r: Option<string>)
    ensures r.Some? ==> r.value in candidates && Casefold(r.value) == Casefold(input)
    ensures r.None? <==> forall c :: c in candidates ==> Casefold(c) != Casefold(input)
    ensures r.Some? ==> exists i :: (0 <= i < |candidates| && candidates[i] == r.value &&
      forall j :: 0 <= j < i ==> Casefold(candidates[j]) != Casefold(input))
  {
    if candidates == [] then None
    else if Casefold(candidates[0]) == Casefold(input) then Some(candidates[0])
    else FirstCasefoldMatch(candidates[1..], input)
  }

  /** The search only looks at the input through its casefold. */
  lemma {:induction false} FirstCasefoldMatchFoldsInput(candidates: seq<string>, a: string, b: string)
    requires Casefold(a) == Casefold(b)
    ensures FirstCasefoldMatch(candidates, a) == FirstCasefoldMatch(candidates, b)
  {
    if candidates != [] {
      FirstCasefoldMatchFoldsInput(candidates[1..], a, b);
    }
  }

  /** What `dotnet_configuration` returns or raises, as a value. */
  function NormalizeConfiguration(configuration: string): (r: Result<string, string>)
    ensures r.Success? <==> exists c :: c in SupportedConfigurations() && Casefold(c) == Casefold(configuration)
    ensures r.Success? ==> r.value in SupportedConfigurations() && Casefold(r.value) == Casefold(configuration)
    ensures r.Failure? ==> r.error == UnknownConfigurationMessage(configuration)
  {
    match FirstCasefoldMatch(SupportedConfigurations(), configuration)
    case Some(c) => Success(c)
    case None => Failure(UnknownConfigurationMessage(configuration))
  }

  /** No two supported configurations share a casefold, so the match is unique. */
  lemma ConfigurationsDifferByCasefold(c: string, d: string)
    requires c in SupportedConfigurations() && d in SupportedConfigurations()
    requires Casefold(c) == Casefold(d)
    ensures c == d
  {
  }

  /** Normalizing a canonical name gives it back. */
  lemma NormalizeIdempotent(configuration: string)
    requires NormalizeConfiguration(configuration).Success?
    ensures NormalizeConfiguration(NormalizeConfiguration(configuration).value) == NormalizeConfiguration(configuration)
  {
    var c := NormalizeConfiguration(configuration).value;
    FirstCasefoldMatchFoldsInput(SupportedConfigurations(), c, configuration);
  }

  /** The default is Release, and it passes its own type conversion unchanged. */
  lemma DefaultIsRelease()
    ensures DefaultConfiguration() == "Release"
    ensures NormalizeConfiguration(DefaultConfiguration()) == Success("Release")
  {
    assert Casefold("Release") == Casefold(DefaultConfiguration());
  }

  /** Lower- and upper-case spellings both normalize to "Release"; an unknown name is reported verbatim. */
  lemma NormalizeExamples()
    ensures NormalizeConfiguration("release") == Success("Release")
    ensures NormalizeConfiguration("RELEASE") == Success("Release")
    ensures NormalizeConfiguration("debug") == Success("Debug")
    ensures NormalizeConfiguration("Retail") == Failure("Unknown configuration: Retail.")
  {
    assert Casefold("release") == Casefold("Release") == Casefold("RELEASE") == "release";
    assert Casefold("debug") == Casefold("Debug") == "debug";
    assert |Casefold("Retail")| == 6;
    assert forall c :: c in SupportedConfigurations() ==> Casefold(c) != Casefold("Retail");
    assert UnknownConfigurationMessage("Retail") == "Unknown configuration: Retail.";
  }

  /**
   * `dotnet_configuration`: walk the supported list and return the first
   * entry whose casefold equals the input's, or fail naming the input.
   */
  method DotnetConfiguration(configuration: string) returns (r: Result<string, string>)
    ensures r.Success? ==> r.value in SupportedConfigurations() && Casefold(r.value) == Casefold(configuration)
    ensures r.Failure? <==> forall c :: c in SupportedConfigurations() ==> Casefold(c) != Casefold(configuration)
    ensures r.Failure? ==> r.error == UnknownConfigurationMessage(configuration)
    ensures r == NormalizeConfiguration(configuration)
  {
    var configs := SupportedConfigurations();
    for i := 0 to |configs|
      invariant forall j :: 0 <= j < i ==> Casefold(configs[j]) != Casefold(configuration)
    {
      var isValid := Casefold(configs[i]) == Casefold(configuration);
      if isValid {
        var n := NormalizeConfiguration(configuration);
        ConfigurationsDifferByCasefold(n.value, configs[i]);
        return Success(configs[i]);
      }
    }
    return Failure(UnknownConfigurationMessage(configuration));
  }
}
