/** The start-up check of the three service credentials (config.py). */
module Config {
  import opened Wrappers
  import Text

  const AssemblyAiKeyName := "ASSEMBLYAI_API_KEY"
  const GeminiKeyName := "GEMINI_API_KEY"
  const MurfKeyName := "MURF_API_KEY"

  /** The text in front of the list of missing names in the error message. */
  const MissingPrefix := "Missing required environment variables: "

  /** The separator between missing names in the error message. */
  const NameSeparator := ", "

  /** A value read with `os.getenv` is `None` when the variable is unset; the
      check treats it as missing when it is falsy, that is `None` or empty. */
  predicate IsSet(value: Option<string>)
  {
    value.Some? && value.value != ""
  }

  /** One required environment variable: its name and the value read for it. */
  datatype Setting = Setting(name: string, value: Option<string>)

  /** The required variables, in the order the check inspects them. */
  function Required(assemblyAiKey: Option<string>, geminiKey: Option<string>, murfKey: Option<string>): seq<Setting>
  {
    [Setting(AssemblyAiKeyName, assemblyAiKey), Setting(GeminiKeyName, geminiKey), Setting(MurfKeyName, murfKey)]
  }

  function Names(settings: seq<Setting>): seq<string>
  {
    seq(|settings|, i requires 0 <= i < |settings| => settings[i].name)
  }

  /** The names of the settings that are not set, in the order given. */
  function MissingNames(settings: seq<Setting>): seq<string>
  {
    if settings == [] then []
    else (if IsSet(settings[0].value) then [] else [settings[0].name]) + MissingNames(settings[1..])
  }

  /** `xs` is `ys` with some elements left out and the rest in their order. */
  ghost predicate IsSubsequence(xs: seq<string>, ys: seq<string>)
    decreases |ys|
  {
    || xs == []
    || (&& ys != []
        && ((xs[0] == ys[0] && IsSubsequence(xs[1..], ys[1..])) || IsSubsequence(xs, ys[1..])))
  }

  ghost predicate Distinct(xs: seq<string>)
  {
    forall i, j :: 0 <= i < j < |xs| ==> xs[i] != xs[j]
  }

  /** A name is reported missing exactly when some setting with that name is not set. */
  lemma {:induction false} MissingNamesMembership(settings: seq<Setting>, name: string)
    ensures name in MissingNames(settings) <==>
            exists i :: 0 <= i < |settings| && settings[i].name == name && !IsSet(settings[i].value)
  {
    if settings != [] {
      MissingNamesMembership(settings[1..], name);
      if name in MissingNames(settings[1..]) {
        var i :| 0 <= i < |settings[1..]| && settings[1..][i].name == name && !IsSet(settings[1..][i].value);
        assert settings[i + 1] == settings[1..][i];
      }
      if exists i :: 0 <= i < |settings| && settings[i].name == name && !IsSet(settings[i].value) {
        var i :| 0 <= i < |settings| && settings[i].name == name && !IsSet(settings[i].value);
        if i > 0 {
          assert settings[1..][i - 1] == settings[i];
        }
      }
    }
  }

  /** The missing names keep the order of the settings. */
  lemma {:induction false} MissingNamesOrdered(settings: seq<Setting>)
    ensures IsSubsequence(MissingNames(settings), Names(settings))
  {
    if settings != [] {
      var missing := MissingNames(settings);
      MissingNamesOrdered(settings[1..]);
      assert Names(settings)[1..] == Names(settings[1..]);
      assert Names(settings)[0] == settings[0].name;
      if !IsSet(settings[0].value) {
        assert missing[0] == settings[0].name && missing[1..] == MissingNames(settings[1..]);
      } else {
        assert missing == MissingNames(settings[1..]);
        assert IsSubsequence(missing, Names(settings)[1..]);
      }
    }
  }

  /** A subsequence of a list without repetitions has no repetitions, and
      holds nothing that list does not. */
  lemma {:induction false} SubsequenceDistinct(xs: seq<string>, ys: seq<string>)
    requires IsSubsequence(xs, ys) && Distinct(ys)
    ensures Distinct(xs) && forall x :: x in xs ==> x in ys
    decreases |ys|
  {
    if xs != [] {
      assert Distinct(ys[1..]) by {
        forall i, j | 0 <= i < j < |ys[1..]| ensures ys[1..][i] != ys[1..][j] {
          assert ys[1..][i] == ys[i + 1] && ys[1..][j] == ys[j + 1];
        }
      }
      if IsSubsequence(xs, ys[1..]) {
        SubsequenceDistinct(xs, ys[1..]);
      } else {
        SubsequenceDistinct(xs[1..], ys[1..]);
        forall i, j | 0 <= i < j < |xs| ensures xs[i] != xs[j] {
          if i == 0 {
            assert xs[j] == xs[1..][j - 1];
            assert xs[j] in ys[1..];
            var k :| 0 <= k < |ys[1..]| && ys[1..][k] == xs[j];
            assert ys[k + 1] == xs[j];
          } else {
            assert xs[i] == xs[1..][i - 1] && xs[j] == xs[1..][j - 1];
          }
        }
        forall x | x in xs ensures x in ys {
          if x != xs[0] {
            assert x in xs[1..];
          }
        }
      }
    }
  }

  /** The three required names are pairwise different. */
  lemma RequiredNamesDistinct(assemblyAiKey: Option<string>, geminiKey: Option<string>, murfKey: Option<string>)
    ensures Names(Required(assemblyAiKey, geminiKey, murfKey)) == [AssemblyAiKeyName, GeminiKeyName, MurfKeyName]
    ensures Distinct([AssemblyAiKeyName, GeminiKeyName, MurfKeyName])
  {
  }

  /** What the check reports for the three credentials: a name is listed exactly
      when its value is unset or empty, names follow the fixed order
      ASSEMBLYAI_API_KEY, GEMINI_API_KEY, MURF_API_KEY, and none is listed twice. */
  lemma RequiredMissingNames(assemblyAiKey: Option<string>, geminiKey: Option<string>, murfKey: Option<string>)
    ensures var missing := MissingNames(Required(assemblyAiKey, geminiKey, murfKey));
      && (AssemblyAiKeyName in missing <==> !IsSet(assemblyAiKey))
      && (GeminiKeyName in missing <==> !IsSet(geminiKey))
      && (MurfKeyName in missing <==> !IsSet(murfKey))
      && IsSubsequence(missing, [AssemblyAiKeyName, GeminiKeyName, MurfKeyName])
      && Distinct(missing)
      && (missing == [] <==> IsSet(assemblyAiKey) && IsSet(geminiKey) && IsSet(murfKey))
  {
    var settings := Required(assemblyAiKey, geminiKey, murfKey);
    var missing := MissingNames(settings);
    RequiredNamesDistinct(assemblyAiKey, geminiKey, murfKey);
    MissingNamesMembership(settings, AssemblyAiKeyName);
    MissingNamesMembership(settings, GeminiKeyName);
    MissingNamesMembership(settings, MurfKeyName);
    assert settings[0].name == AssemblyAiKeyName && settings[1].name == GeminiKeyName;
    assert settings[2].name == MurfKeyName;
    MissingNamesOrdered(settings);
    SubsequenceDistinct(missing, Names(settings));
    if missing != [] {
      assert missing[0] in Names(settings);
    }
  }

  /** `Config.validate`: collect the names of the unset credentials in order and
      fail with a message listing them, or pass when there are none. */
  method Validate(assemblyAiKey: Option<string>, geminiKey: Option<string>, murfKey: Option<string>)
    returns (outcome: Outcome<string>)
    ensures outcome.Pass? <==> IsSet(assemblyAiKey) && IsSet(geminiKey) && IsSet(murfKey)
    ensures outcome.Fail? ==>
      outcome.error == MissingPrefix + Text.Join(MissingNames(Required(assemblyAiKey, geminiKey, murfKey)), NameSeparator)
  {
    var missing: seq<string> := [];
    if !IsSet(assemblyAiKey) {
      missing := missing + [AssemblyAiKeyName];
    }
    if !IsSet(geminiKey) {
      missing := missing + [GeminiKeyName];
    }
    if !IsSet(murfKey) {
      missing := missing + [MurfKeyName];
    }
    ghost var settings := Required(assemblyAiKey, geminiKey, murfKey);
    assert MissingNames(settings[2..]) == if IsSet(murfKey) then [] else [MurfKeyName] by {
      assert settings[2..][1..] == [];
    }
    assert settings[1..][1..] == settings[2..];
    assert missing == MissingNames(settings);
    if missing != [] {
      outcome := Fail(MissingPrefix + Text.Join(missing, NameSeparator));
    } else {
      outcome := Pass;
    }
  }
}
