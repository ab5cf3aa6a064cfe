/**
 * The env-file helpers of src/utils.ts: `extractEnvValue`, which runs the
 * multiline regular expression `^KEY=(.+)$` over the file content, and
 * `isSpeechResourceSeleted`, which asks for all four credential keys. The
 * workspace folder and the file content are inputs; the key names are
 * parameters.
 */
module EnvUtils {
  import opened Common
  import opened Text

  // ================================================================ the regular expression

  /** In multiline mode `^` matches at the start of the input and right after a line terminator. */
  predicate IsLineStart(content: string, p: int) {
    p == 0 || (0 < p <= |content| && IsLineTerminator(content[p - 1]))
  }

  /** What `.+` followed by `$` captures from `q`: the characters up to the next line terminator or the end. */
  function LineRest(content: string, q: nat): (v: string)
    requires q <= |content|
    ensures q + |v| <= |content| && v == content[q..q + |v|]
    ensures forall i :: 0 <= i < |v| ==> !IsLineTerminator(v[i])
    ensures q + |v| == |content| || IsLineTerminator(content[q + |v|])
    decreases |content| - q
  {
    if q == |content| || IsLineTerminator(content[q]) then []
    else [content[q]] + LineRest(content, q + 1)
  }

  /** The pattern matches at `p`: a line start, then `KEY=`, then at least one character of the same line. */
  predicate MatchAt(content: string, key: string, p: nat) {
    && p <= |content|
    && IsLineStart(content, p)
    && StartsWith(content[p..], key + "=")
    && LineRest(content, p + |key| + 1) != []
  }

  /** The regular-expression search from position `p` on: the capture of the leftmost match, if any. */
  function ScanFrom(content: string, key: string, p: nat): Option<string>
    requires p <= |content|
    decreases |content| - p
  {
    if MatchAt(content, key, p) then Some(LineRest(content, p + |key| + 1))
    else if p == |content| then None
    else ScanFrom(content, key, p + 1)
  }

  /** The search finds a value exactly when the pattern matches somewhere from `p` on. */
  lemma {:induction false} ScanFromFinds(content: string, key: string, p: nat)
    requires p <= |content|
    ensures ScanFrom(content, key, p).Some? <==> exists q :: p <= q <= |content| && MatchAt(content, key, q)
    decreases |content| - p
  {
    if !MatchAt(content, key, p) && p < |content| {
      ScanFromFinds(content, key, p + 1);
      if q :| p <= q <= |content| && MatchAt(content, key, q) {
        assert p + 1 <= q;
      }
    }
  }

  /** A value found is the capture of the leftmost match. */
  lemma {:induction false} ScanFromLeftmost(content: string, key: string, p: nat)
    requires p <= |content| && ScanFrom(content, key, p).Some?
    ensures exists q :: && p <= q <= |content| && MatchAt(content, key, q)
                        && ScanFrom(content, key, p).value == LineRest(content, q + |key| + 1)
                        && forall q' :: p <= q' < q ==> !MatchAt(content, key, q')
    decreases |content| - p
  {
    if MatchAt(content, key, p) {
      assert ScanFrom(content, key, p).value == LineRest(content, p + |key| + 1);
    } else {
      assert ScanFrom(content, key, p) == ScanFrom(content, key, p + 1);
      ScanFromLeftmost(content, key, p + 1);
      var q :| && p + 1 <= q <= |content| && MatchAt(content, key, q)
               && ScanFrom(content, key, p + 1).value == LineRest(content, q + |key| + 1)
               && forall q' :: p + 1 <= q' < q ==> !MatchAt(content, key, q');
      assert forall q' :: p <= q' < q ==> !MatchAt(content, key, q');
    }
  }

  /**
   * `extractEnvValue`: the text after `KEY=` on the first line that starts
   * with `KEY=` and has something after it; a value never contains a line
   * terminator and is never empty.
   */
  function ExtractEnvValue(content: string, key: string): (r: Option<string>)
    ensures r.Some? <==> exists p :: 0 <= p <= |content| && MatchAt(content, key, p)
    ensures r.Some? ==> exists p :: && 0 <= p <= |content| && MatchAt(content, key, p)
                                    && r.value == LineRest(content, p + |key| + 1)
                                    && forall q :: 0 <= q < p ==> !MatchAt(content, key, q)
    ensures r.Some? ==> r.value != [] && forall i :: 0 <= i < |r.value| ==> !IsLineTerminator(r.value[i])
  {
    ScanFromFinds(content, key, 0);
    if ScanFrom(content, key, 0).Some? then
      ScanFromLeftmost(content, key, 0);
      ScanFrom(content, key, 0)
    else ScanFrom(content, key, 0)
  }

  // ================================================================ the same on lines

  /** The position of the first line terminator in `s`, or |s|. */
  function LineEnd(s: string): (k: nat)
    ensures k <= |s|
    ensures forall i :: 0 <= i < k ==> !IsLineTerminator(s[i])
    ensures k < |s| ==> IsLineTerminator(s[k])
  {
    if s == [] || IsLineTerminator(s[0]) then 0 else 1 + LineEnd(s[1..])
  }

  /** The content cut at every line terminator (LF, CR, U+2028, U+2029). */
  function Lines(s: string): (lines: seq<string>)
    ensures |lines| >= 1
    decreases |s|
  {
    var k := LineEnd(s);
    if k == |s| then [s] else [s[..k]] + Lines(s[k + 1..])
  }

  /** What one line contributes: the text after `KEY=` when the line starts with it and goes on. */
  function LineValue(line: string, key: string): Option<string> {
    if StartsWith(line, key + "=") && |line| > |key| + 1 then Some(line[|key| + 1..]) else None
  }

  /** The first line that contributes a value. */
  function FirstLineValue(lines: seq<string>, key: string): Option<string> {
    if lines == [] then None
    else if LineValue(lines[0], key).Some? then LineValue(lines[0], key)
    else FirstLineValue(lines[1..], key)
  }

  predicate NoLineTerminator(s: string) {
    forall i :: 0 <= i < |s| ==> !IsLineTerminator(s[i])
  }

  /** Positions that are not line starts are skipped by the search. */
  lemma {:induction false} SkipNonStarts(content: string, key: string, i: nat, j: nat)
    requires i <= j <= |content|
    requires forall p :: i <= p < j ==> !IsLineStart(content, p)
    ensures ScanFrom(content, key, i) == ScanFrom(content, key, j)
    decreases j - i
  {
    if i < j {
      SkipNonStarts(content, key, i + 1, j);
    }
  }

  /** Behind a line terminator, the pattern matches where it matches in the rest alone, with the same capture. */
  lemma MatchShift(pre: string, rest: string, key: string, q: nat)
    requires pre != [] && IsLineTerminator(pre[|pre| - 1])
    requires q <= |rest|
    ensures MatchAt(pre + rest, key, |pre| + q) <==> MatchAt(rest, key, q)
    ensures MatchAt(rest, key, q) ==> LineRest(pre + rest, |pre| + q + |key| + 1) == LineRest(rest, q + |key| + 1)
  {
    var c := pre + rest;
    var head := key + "=";
    assert c[|pre| + q..] == rest[q..];
    assert IsLineStart(c, |pre| + q) <==> IsLineStart(rest, q) by {
      if q > 0 {
        assert c[|pre| + q - 1] == rest[q - 1];
      }
    }
    if StartsWith(rest[q..], head) {
      assert q + |key| + 1 <= |rest|;
      LineRestShift(pre, rest, q + |key| + 1);
      assert LineRest(c, |pre| + q + |key| + 1) == LineRest(rest, q + |key| + 1);
    } else {
      assert !StartsWith(c[|pre| + q..], head);
    }
  }

  /** Behind a line terminator, the search sees the rest as if it were the whole content. */
  lemma {:induction false} ScanShift(pre: string, rest: string, key: string, q: nat)
    requires pre != [] && IsLineTerminator(pre[|pre| - 1])
    requires q <= |rest|
    ensures ScanFrom(pre + rest, key, |pre| + q) == ScanFrom(rest, key, q)
    decreases |rest| - q
  {
    MatchShift(pre, rest, key, q);
    if !MatchAt(rest, key, q) && q < |rest| {
      ScanShift(pre, rest, key, q + 1);
    }
  }

  lemma {:induction false} LineRestShift(pre: string, rest: string, q: nat)
    requires q <= |rest|
    ensures LineRest(pre + rest, |pre| + q) == LineRest(rest, q)
    decreases |rest| - q
  {
    var c := pre + rest;
    if q < |rest| {
      assert c[|pre| + q] == rest[q];
      LineRestShift(pre, rest, q + 1);
    }
  }

  /** At position 0 the pattern matches exactly when the first line contributes a value, and captures that value. */
  lemma FirstLineMatch(content: string, key: string)
    requires NoLineTerminator(key)
    ensures var line := content[..LineEnd(content)];
            && (MatchAt(content, key, 0) <==> LineValue(line, key).Some?)
            && (MatchAt(content, key, 0) ==> LineRest(content, |key| + 1) == LineValue(line, key).value)
  {
    var k := LineEnd(content);
    var line := content[..k];
    var head := key + "=";
    assert NoLineTerminator(head) by {
      assert forall i :: 0 <= i < |key| ==> head[i] == key[i];
    }
    if StartsWith(content, head) {
      assert |head| <= k;
      assert StartsWith(line, head) by {
        assert line[..|head|] == content[..|head|];
      }
      var v := LineRest(content, |head|);
      assert |head| + |v| == k;
      assert v == line[|head|..];
    } else {
      assert !StartsWith(line, head);
    }
    assert content[0..] == content;
  }

  /**
   * Reading the content line by line gives the same value as the regular
   * expression: `extractEnvValue` returns the value of the first line that
   * starts with `KEY=` and has at least one more character, provided the key
   * holds no line terminator.
   */
  lemma {:induction false} ExtractEnvValueByLines(content: string, key: string)
    requires NoLineTerminator(key)
    ensures ExtractEnvValue(content, key) == FirstLineValue(Lines(content), key)
    decreases |content|
  {
    var k := LineEnd(content);
    var line := content[..k];
    FirstLineMatch(content, key);
    assert Lines(content)[0] == line;
    if MatchAt(content, key, 0) {
      assert ExtractEnvValue(content, key) == Some(LineRest(content, |key| + 1));
    } else {
      // inside the first line there is no other line start
      forall p | 1 <= p <= k ensures !IsLineStart(content, p) {
        assert !IsLineTerminator(content[p - 1]);
      }
      if k == |content| {
        assert Lines(content) == [content];
        if k > 0 {
          SkipNonStarts(content, key, 1, k);
          assert !MatchAt(content, key, k);
        }
        assert ScanFrom(content, key, 0) == None;
      } else {
        var rest := content[k + 1..];
        assert Lines(content)[1..] == Lines(rest);
        SkipNonStarts(content, key, 1, k + 1);
        assert content == content[..k + 1] + rest;
        ScanShift(content[..k + 1], rest, key, 0);
        assert ScanFrom(content, key, 0) == ScanFrom(rest, key, 0);
        ExtractEnvValueByLines(rest, key);
      }
    }
  }

  // ================================================================ the selection check

  /** The `EnvKeys` names of the four credentials the sample needs. */
  datatype EnvKeyNames = EnvKeyNames(speechServiceKey: string, serviceRegion: string, tenantId: string, subscriptionId: string)

  /** Every key has a non-empty value in the content. */
  predicate AllKeysPresent(content: string, keys: EnvKeyNames) {
    && ExtractEnvValue(content, keys.speechServiceKey).Some?
    && ExtractEnvValue(content, keys.serviceRegion).Some?
    && ExtractEnvValue(content, keys.tenantId).Some?
    && ExtractEnvValue(content, keys.subscriptionId).Some?
  }

  /**
   * `isSpeechResourceSeleted`: `workspace` is the folder path, if any, and
   * `envContent` the content of the env file under it, absent when the file
   * does not exist. True exactly when a folder is open, the file exists and
   * all four keys have values.
   */
  function IsSpeechResourceSelected(workspace: Option<string>, envContent: Option<string>, keys: EnvKeyNames): (b: bool)
    ensures b <==> Truthy(workspace) && envContent.Some? && AllKeysPresent(envContent.value, keys)
  {
    if !Truthy(workspace) then false
    else if envContent.None? then false
    else
      var content := envContent.value;
      var speechServiceKey := ExtractEnvValue(content, keys.speechServiceKey);
      var serviceRegion := ExtractEnvValue(content, keys.serviceRegion);
      var tenantId := ExtractEnvValue(content, keys.tenantId);
      var subscriptionId := ExtractEnvValue(content, keys.subscriptionId);
      !(!Truthy(speechServiceKey) || !Truthy(serviceRegion) || !Truthy(tenantId) || !Truthy(subscriptionId))
  }

  /** A key without a non-empty `KEY=` line makes the check fail, whatever the other keys hold. */
  lemma MissingKeyRejects(workspace: Option<string>, content: string, keys: EnvKeyNames, missing: string)
    requires missing in [keys.speechServiceKey, keys.serviceRegion, keys.tenantId, keys.subscriptionId]
    requires forall p :: 0 <= p <= |content| ==> !MatchAt(content, missing, p)
    ensures !IsSpeechResourceSelected(workspace, Some(content), keys)
  {
    var absent := ExtractEnvValue(content, missing);
    assert absent.None?;
    if missing == keys.speechServiceKey {
      assert !ExtractEnvValue(content, keys.speechServiceKey).Some?;
    } else if missing == keys.serviceRegion {
      assert !ExtractEnvValue(content, keys.serviceRegion).Some?;
    } else if missing == keys.tenantId {
      assert !ExtractEnvValue(content, keys.tenantId).Some?;
    } else {
      assert !ExtractEnvValue(content, keys.subscriptionId).Some?;
    }
  }
}
