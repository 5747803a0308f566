/** Kubernetes resource names for InferenceServices (webhook-listener/src/templates.py):
    `sanitize_k8s_name`, `generate_inference_service_name` and the name choice made by
    `render_inference_service`. The Jinja rendering itself is a parameter elsewhere. */
module K8sNames {
  import opened Wrappers
  import opened Strings

  /** K8S_NAME_MAX_LENGTH. */
  const MaxNameLength: nat := 253

  const Hyphen: set<char> := {'-'}

  predicate IsAlnum(c: char) {
    ('a' <= c <= 'z') || ('0' <= c <= '9')
  }

  /** The character class `[a-z0-9-]`. */
  predicate IsAllowed(c: char) {
    IsAlnum(c) || c == '-'
  }

  /** ASCII lowering; see README for the Unicode cases this leaves out. */
  function LowerChar(c: char): char {
    if 'A' <= c <= 'Z' then (c as int + 32) as char else c
  }

  function Lower(s: string): (r: string)
    ensures |r| == |s| && forall i :: 0 <= i < |s| ==> r[i] == LowerChar(s[i])
  {
    seq(|s|, i requires 0 <= i < |s| => LowerChar(s[i]))
  }

  /** `re.sub(r"[^a-z0-9-]", "-", s)`. */
  function ReplaceInvalid(s: string): (r: string)
    ensures |r| == |s| && forall i :: 0 <= i < |s| ==> r[i] == if IsAllowed(s[i]) then s[i] else '-'
  {
    seq(|s|, i requires 0 <= i < |s| => if IsAllowed(s[i]) then s[i] else '-')
  }

  ghost predicate AllAllowed(s: string) {
    forall i :: 0 <= i < |s| ==> IsAllowed(s[i])
  }

  /** Positions `i` and `i + 1` both hold a hyphen. */
  predicate DoubleHyphenAt(s: string, i: nat)
    requires i + 1 < |s|
  {
    s[i] == '-' && s[i + 1] == '-'
  }

  ghost predicate NoDoubleHyphen(s: string) {
    forall i: nat :: i + 1 < |s| ==> !DoubleHyphenAt(s, i)
  }

  /** What Kubernetes accepts and what `sanitize_k8s_name` promises in its docstring:
      `[a-z0-9-]`, alphanumeric at both ends, at most 253 characters; plus the absence
      of `--`, which the collapsing step guarantees. */
  ghost predicate ValidName(s: string) {
    0 < |s| <= MaxNameLength && WellShaped(s)
  }

  /** `[a-z0-9-]` only, no `--`, no hyphen at either end (the empty string included). */
  ghost predicate WellShaped(s: string) {
    && AllAllowed(s)
    && NoDoubleHyphen(s)
    && (s == [] || (s[0] != '-' && s[|s| - 1] != '-'))
  }

  /** `s` with every hyphen removed: what collapsing must not change. */
  function WithoutHyphens(s: string): string
    decreases |s|
  {
    if s == [] then [] else (if s[0] == '-' then [] else [s[0]]) + WithoutHyphens(s[1..])
  }

  /** `re.sub(r"-+", "-", s)`: every maximal run of hyphens becomes one hyphen. */
  function CollapseHyphens(s: string): (r: string)
    ensures |r| <= |s| && (r == [] <==> s == [])
    ensures NoDoubleHyphen(r)
    ensures forall c :: c in r ==> c in s
    ensures s != [] && s[0] != '-' ==> r[0] == s[0]
    ensures s != [] && s[|s| - 1] != '-' ==> r[|r| - 1] == s[|s| - 1]
    decreases |s|
  {
    if s == [] then []
    else if s[0] == '-' then
      var c := CollapseHyphens(LStrip(s, Hyphen));
      NoDoubleHyphenCons('-', c);
      ['-'] + c
    else
      var c := CollapseHyphens(s[1..]);
      NoDoubleHyphenCons(s[0], c);
      [s[0]] + c
  }

  /** Collapsing removes hyphens only: every other character is kept, in order. */
  lemma {:induction false} CollapseKeepsOthers(s: string)
    ensures WithoutHyphens(CollapseHyphens(s)) == WithoutHyphens(s)
    decreases |s|
  {
    if s == [] {
    } else if s[0] == '-' {
      var c := CollapseHyphens(LStrip(s, Hyphen));
      CollapseKeepsOthers(LStrip(s, Hyphen));
      LStripHyphens(s);
      assert (['-'] + c)[1..] == c;
    } else {
      var c := CollapseHyphens(s[1..]);
      CollapseKeepsOthers(s[1..]);
      assert ([s[0]] + c)[1..] == c;
    }
  }

  /** Dropping leading hyphens removes no other character. */
  lemma {:induction false} LStripHyphens(s: string)
    ensures WithoutHyphens(LStrip(s, Hyphen)) == WithoutHyphens(s)
    decreases |s|
  {
    if |s| > 0 && s[0] in Hyphen {
      LStripHyphens(s[1..]);
    }
  }

  /** An independent reading of the collapse: drop each hyphen that is followed by another. */
  function DropRepeatedHyphens(s: string): string
    decreases |s|
  {
    if |s| < 2 then s
    else if s[0] == '-' && s[1] == '-' then DropRepeatedHyphens(s[1..])
    else [s[0]] + DropRepeatedHyphens(s[1..])
  }

  /** The recursive collapse and the hyphen-dropping reading agree on every string. */
  lemma {:induction false} CollapseIsDropRepeated(s: string)
    ensures CollapseHyphens(s) == DropRepeatedHyphens(s)
    decreases |s|
  {
    if s == [] {
    } else if s[0] == '-' {
      var l := LStrip(s, Hyphen);
      CollapseIsDropRepeated(l);
      DropLeadingRun(s);
    } else {
      CollapseIsDropRepeated(s[1..]);
    }
  }

  /** A leading run of hyphens reads as one hyphen before the rest. */
  lemma {:induction false} DropLeadingRun(s: string)
    requires s != [] && s[0] == '-'
    ensures DropRepeatedHyphens(s) == ['-'] + DropRepeatedHyphens(LStrip(s, Hyphen))
    decreases |s|
  {
    var l := LStrip(s, Hyphen);
    if |s| >= 2 && s[1] == '-' {
      DropLeadingRun(s[1..]);
    } else {
      assert l == s[1..];
    }
  }

  lemma NoDoubleHyphenCons(x: char, c: string)
    requires NoDoubleHyphen(c) && !(x == '-' && c != [] && c[0] == '-')
    ensures NoDoubleHyphen([x] + c)
  {
    var r := [x] + c;
    forall i: nat | i + 1 < |r| ensures !DoubleHyphenAt(r, i) {
      if i > 0 {
        assert !DoubleHyphenAt(c, i - 1);
      }
    }
  }

  lemma NoDoubleHyphenPrefix(s: string, n: nat)
    requires NoDoubleHyphen(s) && n <= |s|
    ensures NoDoubleHyphen(s[..n])
  {
    var p := s[..n];
    forall i: nat | i + 1 < |p| ensures !DoubleHyphenAt(p, i) {
      assert !DoubleHyphenAt(s, i);
    }
  }

  /** The `if len(name) > K8S_NAME_MAX_LENGTH` step: cut to 253, then `rstrip("-")`. */
  function Truncate(s: string): string {
    if |s| > MaxNameLength then RStrip(s[..MaxNameLength], Hyphen) else s
  }

  /** The string `sanitize_k8s_name` checks for emptiness (everything before the raise). */
  function Sanitized(name: string): string {
    Truncate(CollapseHyphens(Strip(ReplaceInvalid(Lower(name)), Hyphen)))
  }

  datatype NameError = EmptyName

  /** `sanitize_k8s_name`: `Err(EmptyName)` stands for its ValueError. A returned
      name is valid and cut from the collapsed form; the error is raised exactly
      when no character lowers to `[a-z0-9]`. */
  function SanitizeK8sName(name: string): (r: Result<string, NameError>)
    ensures r.Ok? ==> ValidName(r.value) && r.value <= Collapsed(name)
    ensures r.Err? <==> forall i :: 0 <= i < |name| ==> !IsAlnum(LowerChar(name[i]))
  {
    SanitizedFacts(name);
    var s := Sanitized(name);
    if s == [] then Err(EmptyName) else Ok(s)
  }

  /** `generate_inference_service_name`: sanitize(f"{model_name}-v{model_version}").
      The `v` it inserts always survives, so the ValueError is never raised; a
      joined string that is valid once lowered is the name, lowered. */
  function GenerateInferenceServiceName(modelName: string, modelVersion: string): (r: Result<string, NameError>)
    ensures r.Ok? && ValidName(r.value)
    ensures ValidName(Lower(modelName + "-v" + modelVersion)) ==> r == Ok(Lower(modelName + "-v" + modelVersion))
  {
    var joined := modelName + "-v" + modelVersion;
    assert joined[|modelName| + 1] == 'v';
    SanitizeLowers(joined);
    SanitizeK8sName(joined)
  }

  /** The name `render_inference_service` puts in the manifest: the caller's name
      sanitized when one is given, the generated name otherwise. It is always a
      valid name, and fails only for a caller's name without a letter or digit. */
  function RenderedName(modelName: string, modelVersion: string, name: Option<string>): (r: Result<string, NameError>)
    ensures r.Ok? ==> ValidName(r.value)
    ensures name.None? ==>
      && r.Ok?
      && (ValidName(Lower(modelName + "-v" + modelVersion)) ==> r.value == Lower(modelName + "-v" + modelVersion))
    ensures name.Some? ==> (r.Err? <==> forall i :: 0 <= i < |name.value| ==> !IsAlnum(LowerChar(name.value[i])))
    ensures name.Some? && ValidName(Lower(name.value)) ==> r == Ok(Lower(name.value))
  {
    match name
    case None => GenerateInferenceServiceName(modelName, modelVersion)
    case Some(n) => SanitizeLowers(n); SanitizeK8sName(n)
  }

  // ---------------------------------------------------------------------------
  // Properties of the sanitizer

  /** Every step keeps the string inside `[a-z0-9-]`, without a hyphen at either end
      and without `--`. */
  lemma StripShape(s: string)
    requires AllAllowed(s)
    ensures var t := Strip(s, Hyphen);
      AllAllowed(t) && (t == [] || (t[0] != '-' && t[|t| - 1] != '-'))
  {
    var l := LStrip(s, Hyphen);
    SuffixAllowed(s, |s| - |l|);
    var t := RStrip(l, Hyphen);
    PrefixAllowed(l, |t|);
    if t != [] {
      assert t[0] == l[0];
    }
  }

  lemma SuffixAllowed(s: string, k: nat)
    requires AllAllowed(s) && k <= |s|
    ensures AllAllowed(s[k..])
  {
    forall i | 0 <= i < |s| - k ensures IsAllowed(s[k..][i]) {
      assert s[k..][i] == s[k + i];
    }
  }

  lemma PrefixAllowed(s: string, k: nat)
    requires AllAllowed(s) && k <= |s|
    ensures AllAllowed(s[..k])
  {
    forall i | 0 <= i < k ensures IsAllowed(s[..k][i]) {
      assert s[..k][i] == s[i];
    }
  }

  lemma CollapseShape(s: string)
    requires AllAllowed(s) && (s == [] || (s[0] != '-' && s[|s| - 1] != '-'))
    ensures WellShaped(CollapseHyphens(s)) && (CollapseHyphens(s) == [] <==> s == [])
  {
    var c := CollapseHyphens(s);
    forall i | 0 <= i < |c| ensures IsAllowed(c[i]) {
      assert c[i] in s;
    }
  }

  lemma {:induction false} TruncateShape(s: string)
    requires WellShaped(s)
    ensures var t := Truncate(s);
      && WellShaped(t) && |t| <= MaxNameLength
      && (t == [] <==> s == [])
      && t <= s
      && (|s| > MaxNameLength ==> |t| >= MaxNameLength - 1)
  {
    if |s| > MaxNameLength {
      var p := s[..MaxNameLength];
      var t := RStrip(p, Hyphen);
      assert p[0] == s[0];
      assert !DoubleHyphenAt(s, MaxNameLength - 2);
      NoDoubleHyphenPrefix(s, MaxNameLength);
      NoDoubleHyphenPrefix(p, |t|);
    }
  }

  /** The stages before the cut, collapsed. */
  function Collapsed(name: string): string {
    CollapseHyphens(Strip(ReplaceInvalid(Lower(name)), Hyphen))
  }

  lemma SanitizeShape(name: string)
    ensures WellShaped(Sanitized(name)) && |Sanitized(name)| <= MaxNameLength
    ensures Sanitized(name) == [] <==> Collapsed(name) == []
    ensures Sanitized(name) <= Collapsed(name)
    ensures |Collapsed(name)| <= MaxNameLength ==> Sanitized(name) == Collapsed(name)
    ensures |Collapsed(name)| > MaxNameLength ==> |Sanitized(name)| >= MaxNameLength - 1
  {
    var r := ReplaceInvalid(Lower(name));
    assert AllAllowed(r);
    StripShape(r);
    var st := Strip(r, Hyphen);
    CollapseShape(st);
    var c := CollapseHyphens(st);
    TruncateShape(c);
    assert Sanitized(name) == Truncate(c);
  }

  /** Over-long names are cut: the returned name is a prefix of the collapsed form,
      equal to it when that fits, and at least 252 characters long when it does not
      (no `--` means at most one trailing hyphen is dropped after the cut). */
  lemma SanitizeTruncation(name: string)
    ensures match SanitizeK8sName(name)
      case Ok(n) => n <= Collapsed(name) && (|Collapsed(name)| <= MaxNameLength ==> n == Collapsed(name))
                    && (|Collapsed(name)| > MaxNameLength ==> MaxNameLength - 1 <= |n| <= MaxNameLength)
      case Err(_) => Collapsed(name) == []
  {
    SanitizeShape(name);
  }

  /** What `SanitizeK8sName` promises, stated on the string it checks. */
  lemma SanitizedFacts(name: string)
    ensures Sanitized(name) != [] ==> ValidName(Sanitized(name)) && Sanitized(name) <= Collapsed(name)
    ensures Sanitized(name) == [] <==> forall i :: 0 <= i < |name| ==> !IsAlnum(LowerChar(name[i]))
  {
    SanitizeShape(name);
    SanitizedEmptyIff(name);
  }

  /** The string before the emptiness check is empty exactly when the lowered input
      holds no `[a-z0-9]` character at all (e.g. "!!!" or "---"). */
  lemma SanitizedEmptyIff(name: string)
    ensures Sanitized(name) == [] <==> forall i :: 0 <= i < |name| ==> !IsAlnum(LowerChar(name[i]))
  {
    var r := ReplaceInvalid(Lower(name));
    SanitizeShape(name);
    StripEmptyIff(r, Hyphen);
    ReplacedHyphensIff(name);
  }

  /** After the character replacement, a hyphen stands exactly where the lowered input
      has no alphanumeric character. */
  lemma ReplacedHyphensIff(name: string)
    ensures var r := ReplaceInvalid(Lower(name));
      (forall i :: 0 <= i < |r| ==> r[i] in Hyphen) <==> forall i :: 0 <= i < |name| ==> !IsAlnum(LowerChar(name[i]))
  {
    var r := ReplaceInvalid(Lower(name));
    assert forall i :: 0 <= i < |r| ==> (r[i] in Hyphen <==> !IsAlnum(LowerChar(name[i])));
  }

  lemma NoDoubleHyphenTail(s: string)
    requires s != [] && NoDoubleHyphen(s)
    ensures NoDoubleHyphen(s[1..])
  {
    var tail := s[1..];
    forall i: nat | i + 1 < |tail| ensures !DoubleHyphenAt(tail, i) {
      assert !DoubleHyphenAt(s, i + 1);
    }
  }

  /** A hyphen followed by a non-hyphen is kept as one hyphen. */
  lemma CollapseSingleHyphen(rest: string)
    requires rest == [] || rest[0] != '-'
    ensures CollapseHyphens(['-'] + rest) == ['-'] + CollapseHyphens(rest)
  {
    var t := ['-'] + rest;
    assert t[1..] == rest;
    assert LStrip(t, Hyphen) == LStrip(rest, Hyphen);
    assert LStrip(rest, Hyphen) == rest;
  }

  /** A character other than a hyphen is kept, and collapsing goes on after it. */
  lemma CollapseKeepsHead(c: char, rest: string)
    requires c != '-'
    ensures CollapseHyphens([c] + rest) == [c] + CollapseHyphens(rest)
  {
    assert ([c] + rest)[1..] == rest;
  }

  lemma {:induction false} CollapseUnchanged(s: string)
    requires NoDoubleHyphen(s) && (s == [] || s[0] != '-')
    ensures CollapseHyphens(s) == s
    decreases |s|
  {
    if s != [] {
      var tail := s[1..];
      assert s == [s[0]] + tail;
      CollapseKeepsHead(s[0], tail);
      NoDoubleHyphenTail(s);
      if tail != [] && tail[0] == '-' {
        var rest := tail[1..];
        assert rest == [] || rest[0] != '-' by {
          if rest != [] { assert !DoubleHyphenAt(s, 1); }
        }
        NoDoubleHyphenTail(tail);
        CollapseUnchanged(rest);
        assert tail == ['-'] + rest;
        CollapseSingleHyphen(rest);
      } else {
        CollapseUnchanged(tail);
      }
    }
  }

  /** A name that is already valid comes back unchanged. */
  lemma SanitizeKeepsValid(s: string)
    requires ValidName(s)
    ensures SanitizeK8sName(s) == Ok(s)
  {
    LowerReplaceUnchanged(s);
    SanitizeLowersValid(s);
  }

  /** Lowering and replacing leave a string over `[a-z0-9-]` alone. */
  lemma LowerReplaceUnchanged(s: string)
    requires AllAllowed(s)
    ensures Lower(s) == s && ReplaceInvalid(s) == s
  {
    var l := Lower(s);
    assert forall i :: 0 <= i < |s| ==> l[i] == s[i];
    var r := ReplaceInvalid(s);
    assert forall i :: 0 <= i < |s| ==> r[i] == s[i];
  }

  /** sanitize(sanitize(x)) == sanitize(x) whenever the first call returns. */
  lemma SanitizeIdempotent(name: string)
    requires SanitizeK8sName(name).Ok?
    ensures SanitizeK8sName(SanitizeK8sName(name).value) == SanitizeK8sName(name)
  {
    SanitizeKeepsValid(SanitizeK8sName(name).value);
  }

  /** An input whose lowered form is already valid is only lowered. */
  lemma SanitizeLowersValid(x: string)
    requires ValidName(Lower(x))
    ensures Sanitized(x) == Lower(x)
  {
    CollapsedLowersValid(x);
  }

  /** A name valid once lowered is only lowered. */
  lemma SanitizeLowers(x: string)
    ensures ValidName(Lower(x)) ==> SanitizeK8sName(x) == Ok(Lower(x))
  {
    if ValidName(Lower(x)) {
      SanitizeLowersValid(x);
    }
  }

  lemma CollapsedLowersValid(x: string)
    requires ValidName(Lower(x))
    ensures Collapsed(x) == Lower(x)
  {
    var m := Lower(x);
    LowerReplaceUnchanged(m);
    StripUnchanged(m, Hyphen);
    CollapseUnchanged(m);
  }

  /** Mixed case is lowered and the hyphen kept. */
  lemma SanitizeMixedCaseExample()
    ensures SanitizeK8sName("MyModel-V1") == Ok("mymodel-v1")
  {
    var x, m := "MyModel-V1", "mymodel-v1";
    assert Lower(x) == m by {
      forall i | 0 <= i < |x| ensures Lower(x)[i] == m[i] { }
    }
    assert ValidName(m) by {
      assert NoDoubleHyphen(m) by {
        forall i: nat | i + 1 < |m| ensures !DoubleHyphenAt(m, i) { }
      }
    }
    SanitizeLowersValid(x);
  }

  /** Inputs with no alphanumeric character, such as "!!!" or "---", are refused. */
  lemma SanitizeRejectsExamples(s: string)
    requires forall i :: 0 <= i < |s| ==> s[i] == '!' || s[i] == '-'
    ensures SanitizeK8sName(s) == Err(EmptyName)
  {
  }

  /** A model name and version become `<name>-v<version>`. */
  lemma GenerateNameExample()
    ensures GenerateInferenceServiceName("iris-classifier", "3") == Ok("iris-classifier-v3")
  {
    var v := "iris-classifier-v3";
    assert "iris-classifier" + "-v" + "3" == v;
    assert ValidName(v) by {
      assert NoDoubleHyphen(v) by {
        forall i: nat | i + 1 < |v| ensures !DoubleHyphenAt(v, i) { }
      }
    }
    SanitizeKeepsValid(v);
  }
}
