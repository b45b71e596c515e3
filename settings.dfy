/**
  The relay's configuration: the gateway base URL, the access token and the
  certificate-verification switch, with the test that turns the raw
  `VERIFY_CERT` setting into a flag.
 */
module Settings {
  import opened Wrappers
  import PyStr

  /** The configuration read once at startup. */
  datatype Config = Config(baseUrl: string, token: Option<string>, verifyCert: bool)

  /** The value assumed when `VERIFY_CERT` is unset. */
  const DefaultVerifyCert := "true"

  /** The settings that switch verification off, once lower-cased. */
  const DisablingValues: set<string> := {"false", "no", "n"}

  /** Whether the TLS certificate of the gateway is checked, from the raw
      `VERIFY_CERT` setting (`None` when it is unset). */
  function VerifyCert(setting: Option<string>): bool {
    var raw := if setting.Some? then setting.value else DefaultVerifyCert;
    PyStr.AsciiLower(raw) !in DisablingValues
  }

  /** `s` spells the lower-case ASCII word `w` in any mix of cases. */
  predicate SpellsAnyCase(s: string, w: string) {
    && |s| == |w|
    && forall i :: 0 <= i < |s| ==> s[i] == w[i] || s[i] as int == w[i] as int - 32
  }

  predicate IsLowerWord(w: string) {
    forall i :: 0 <= i < |w| ==> 'a' <= w[i] <= 'z'
  }

  lemma LowerIsWordIff(s: string, w: string)
    requires IsLowerWord(w)
    ensures PyStr.AsciiLower(s) == w <==> SpellsAnyCase(s, w)
  {
    var l := PyStr.AsciiLower(s);
    if SpellsAnyCase(s, w) {
      assert forall i :: 0 <= i < |s| ==> l[i] == w[i];
    }
    if l == w {
      forall i | 0 <= i < |s|
        ensures s[i] == w[i] || s[i] as int == w[i] as int - 32
      {
        assert PyStr.LowerChar(s[i]) == w[i];
      }
    }
  }

  /** Verification is switched off exactly by `false`, `no` or `n` written in
      any mix of upper and lower case; every other setting, the default
      included, keeps it on. */
  lemma VerifyCertOffExactly(setting: string)
    ensures !VerifyCert(Some(setting)) <==>
              SpellsAnyCase(setting, "false") || SpellsAnyCase(setting, "no") || SpellsAnyCase(setting, "n")
  {
    LowerIsWordIff(setting, "false");
    LowerIsWordIff(setting, "no");
    LowerIsWordIff(setting, "n");
  }

  /** The default and common look-alikes leave verification on; the
      disabling words do not depend on case. */
  lemma VerifyCertExamples()
    ensures VerifyCert(None)
    ensures VerifyCert(Some("0")) && VerifyCert(Some("off")) && VerifyCert(Some(""))
    ensures !VerifyCert(Some("FALSE")) && !VerifyCert(Some("No")) && !VerifyCert(Some("N"))
  {
    assert PyStr.AsciiLower("true") == "true";
    assert PyStr.AsciiLower("0") == "0";
    assert PyStr.AsciiLower("off") == "off";
    assert PyStr.AsciiLower("FALSE") == "false";
    assert PyStr.AsciiLower("No") == "no";
    assert PyStr.AsciiLower("N") == "n";
  }
}
