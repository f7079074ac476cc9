/**
 * Upstream API-key lists and the Fisher–Yates shuffle used to try a channel's
 * keys in random order (apps/worker/src/utils/keys.ts).
 */
module Keys {
  import opened Text

  /** The trimmed lines that are not blank, in their original order. */
  function NonBlankTrimmed(lines: seq<string>): (r: seq<string>)
    ensures |r| <= |lines|
    ensures forall i :: 0 <= i < |r| ==> IsCleanKey(r[i])
  {
    if lines == [] then []
    else
      var t := Trim(lines[0]);
      var rest := NonBlankTrimmed(lines[1..]);
      if t == "" then rest else [t] + rest
  }

  /** A character absent from every line is absent from every key kept. */
  lemma {:induction false} NonBlankTrimmedKeepsOut(lines: seq<string>, c: char)
    requires forall i :: 0 <= i < |lines| ==> c !in lines[i]
    ensures forall i :: 0 <= i < |NonBlankTrimmed(lines)| ==> c !in NonBlankTrimmed(lines)[i]
  {
    if lines != [] {
      TrimKeepsOut(lines[0], c);
      NonBlankTrimmedKeepsOut(lines[1..], c);
    }
  }

  /** A single line gives its trim, or nothing when that is empty. */
  lemma NonBlankTrimmedLine(line: string)
    ensures NonBlankTrimmed([line]) == if Trim(line) == "" then [] else [Trim(line)]
  {
    assert [line][1..] == [];
  }

  /** `NonBlankTrimmed` works line by line: a concatenation of line lists gives the concatenation of the results. */
  lemma {:induction false} NonBlankTrimmedAppend(a: seq<string>, b: seq<string>)
    ensures NonBlankTrimmed(a + b) == NonBlankTrimmed(a) + NonBlankTrimmed(b)
  {
    if a == [] {
      assert a + b == b;
    } else {
      assert (a + b)[0] == a[0] && (a + b)[1..] == a[1..] + b;
      NonBlankTrimmedAppend(a[1..], b);
    }
  }

  /** A key as `parseApiKeys` returns it: non-empty, with no white space at either end. */
  predicate IsCleanKey(k: string) {
    k != "" && !IsSpace(k[0]) && !IsSpace(k[|k| - 1])
  }

  /** `parseApiKeys`: split on newlines, trim each line, drop the empty ones. */
  function ParseApiKeys(apiKey: string): (r: seq<string>)
    ensures forall i :: 0 <= i < |r| ==> IsCleanKey(r[i]) && '\n' !in r[i]
    ensures |r| <= |Split(apiKey, '\n')|
  {
    NonBlankTrimmedKeepsOut(Split(apiKey, '\n'), '\n');
    NonBlankTrimmed(Split(apiKey, '\n'))
  }

  /** The keys of newline-joined lines are the non-blank trimmed lines, in order. */
  lemma ParseApiKeysOfLines(lines: seq<string>)
    requires lines != []
    requires forall i :: 0 <= i < |lines| ==> '\n' !in lines[i]
    ensures ParseApiKeys(Join(lines, "\n")) == NonBlankTrimmed(lines)
  {
    SplitJoin(lines, '\n');
  }

  /** Keys that are already clean survive a newline-join followed by parsing, in order. */
  lemma {:induction false} ParseJoinedKeys(keys: seq<string>)
    requires forall i :: 0 <= i < |keys| ==> IsCleanKey(keys[i]) && '\n' !in keys[i]
    ensures ParseApiKeys(Join(keys, "\n")) == keys
  {
    if keys == [] {
      assert Split("", '\n') == [""];
    } else {
      SplitJoin(keys, '\n');
      NonBlankOfClean(keys);
    }
  }

  lemma {:induction false} NonBlankOfClean(keys: seq<string>)
    requires forall i :: 0 <= i < |keys| ==> IsCleanKey(keys[i])
    ensures NonBlankTrimmed(keys) == keys
  {
    if keys != [] {
      TrimOfTrimmed(keys[0]);
      NonBlankOfClean(keys[1..]);
    }
  }

  /** `[a[i], a[j]] = [a[j], a[i]]` on a sequence. */
  function Swap<T>(s: seq<T>, i: nat, j: nat): (r: seq<T>)
    requires i < |s| && j < |s|
    ensures |r| == |s|
    ensures r[i] == s[j] && r[j] == s[i]
    ensures forall k :: 0 <= k < |s| && k != i && k != j ==> r[k] == s[k]
  {
    s[i := s[j]][j := s[i]]
  }

  /**
   * An index oracle in place of `Math.floor(Math.random() * (i + 1))`:
   * at step `i` it yields some `j` with 0 <= j <= i.
   */
  ghost predicate IsIndexOracle(draw: nat -> nat) {
    forall i: nat :: draw(i) <= i
  }

  /** The swaps the shuffle performs from index `i` down to 1. */
  function FisherYates<T>(s: seq<T>, i: nat, draw: nat -> nat): (r: seq<T>)
    requires i < |s| && IsIndexOracle(draw)
    ensures |r| == |s|
    decreases i
  {
    if i == 0 then s else FisherYates(Swap(s, i, draw(i)), i - 1, draw)
  }

  /** Every run of Fisher–Yates swaps is a permutation of its input. */
  lemma {:induction false} FisherYatesPermutes<T>(s: seq<T>, i: nat, draw: nat -> nat)
    requires i < |s| && IsIndexOracle(draw)
    ensures multiset(FisherYates(s, i, draw)) == multiset(s)
    decreases i
  {
    if i > 0 {
      var j := draw(i);
      assert multiset(Swap(s, i, j)) == multiset(s) by {
        assert Swap(s, i, j) == s[i := s[j]][j := s[i]];
      }
      FisherYatesPermutes(Swap(s, i, j), i - 1, draw);
    }
  }

  /** The result of `shuffleArray` for given draws. */
  function Shuffled<T>(s: seq<T>, draw: nat -> nat): seq<T>
    requires IsIndexOracle(draw)
  {
    if |s| <= 1 then s else FisherYates(s, |s| - 1, draw)
  }

  /** `shuffleArray`: copies the input into a fresh array and swaps downwards in place. */
  method ShuffleArray<T>(arr: seq<T>, draw: nat -> nat) returns (r: seq<T>)
    requires IsIndexOracle(draw)
    ensures r == Shuffled(arr, draw)
    ensures |r| == |arr| && multiset(r) == multiset(arr)
  {
    var a := new T[|arr|](k requires 0 <= k < |arr| => arr[k]);
    assert a[..] == arr;
    if a.Length > 1 {
      var i := a.Length - 1;
      while i > 0
        invariant 0 <= i < a.Length
        invariant FisherYates(a[..], i, draw) == Shuffled(arr, draw)
        decreases i
      {
        var j := draw(i);
        ghost var before := a[..];
        var t := a[i];
        a[i] := a[j];
        a[j] := t;
        assert a[..] == Swap(before, i, j);
        i := i - 1;
      }
    }
    r := a[..];
    if |arr| > 1 {
      FisherYatesPermutes(arr, |arr| - 1, draw);
    }
  }
}
