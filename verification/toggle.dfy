/** The process-wide randomization switch, read from the environment
    variable `LOGFIRE_RANDOMIZE` (annotations.py line 24). The environment is
    passed in as a map instead of being read from the process. */
module Toggle {
  import opened Results
  import opened Text

  const VarName := "LOGFIRE_RANDOMIZE"

  /** The value assumed when the variable is not set. */
  const Default := "true"

  /** The words that switch randomization off once lower-cased. */
  const FalsyWords: set<string> := {"0", "false", "no"}

  /** `v` is one of the falsy words written in any mix of letter cases. */
  predicate IsFalsyWord(v: string) {
    MatchesIgnoringCase(v, "0") || MatchesIgnoringCase(v, "false") || MatchesIgnoringCase(v, "no")
  }

  function Lookup(environ: map<string, string>): (r: Option<string>) {
    if VarName in environ then Some(environ[VarName]) else None
  }

  /** `os.environ.get("LOGFIRE_RANDOMIZE", "true").lower() not in ("0", "false", "no")` */
  function Randomize(environ: map<string, string>): (on: bool)
    ensures VarName !in environ ==> on
  {
    Lower(Lookup(environ).GetOr(Default)) !in FalsyWords
  }

  /** Randomization is off exactly when the variable is set to "0", "false" or
      "no" in any letter case; any other value, the empty string included,
      leaves it on. */
  lemma RandomizeOffExactly(environ: map<string, string>)
    ensures !Randomize(environ) <==> VarName in environ && IsFalsyWord(environ[VarName])
  {
    var v := Lookup(environ).GetOr(Default);
    LowerEqualsIff(v, "0");
    LowerEqualsIff(v, "false");
    LowerEqualsIff(v, "no");
    if VarName !in environ {
      assert v == Default;
    }
  }

  /** Concrete readings of the variable. */
  lemma RandomizeExamples()
    ensures !Randomize(map[VarName := "FALSE"])
    ensures !Randomize(map[VarName := "No"])
    ensures !Randomize(map[VarName := "0"])
    ensures Randomize(map[VarName := ""])
    ensures Randomize(map[VarName := "off"])
    ensures Randomize(map[])
  {
    RandomizeOffExactly(map[VarName := "FALSE"]);
    RandomizeOffExactly(map[VarName := "No"]);
    RandomizeOffExactly(map[VarName := "0"]);
    RandomizeOffExactly(map[VarName := ""]);
    RandomizeOffExactly(map[VarName := "off"]);
  }
}
