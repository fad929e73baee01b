/** Joining lines with "\n" (`Array.prototype.join("\n")`) and the inverse
    splitting, used to read back the layout of a boot script. */
module Lines {
  /** `lines.join("\n")`. */
  function JoinLines(lines: seq<string>): string {
    if |lines| == 0 then ""
    else if |lines| == 1 then lines[0]
    else lines[0] + "\n" + JoinLines(lines[1..])
  }

  /** The position of the first newline of `s`. */
  function NewlineIndex(s: string): (i: nat)
    requires '\n' in s
    ensures i < |s| && s[i] == '\n'
    ensures '\n' !in s[..i]
  {
    if s[0] == '\n' then 0
    else
      assert '\n' in s[1..];
      var j := NewlineIndex(s[1..]);
      assert s[..j + 1] == [s[0]] + s[1..][..j];
      j + 1
  }

  /** `s.split("\n")`: the pieces between newlines, at least one. */
  function SplitLines(s: string): (lines: seq<string>)
    ensures |lines| >= 1
    decreases |s|
  {
    if '\n' in s then
      var i := NewlineIndex(s);
      [s[..i]] + SplitLines(s[i + 1..])
    else [s]
  }

  predicate SingleLine(line: string) {
    '\n' !in line
  }

  /** Splitting a join gives back the lines, as long as there is at least
      one line and none contains a newline. */
  lemma {:induction false} SplitJoin(lines: seq<string>)
    requires |lines| >= 1
    requires forall i :: 0 <= i < |lines| ==> SingleLine(lines[i])
    ensures SplitLines(JoinLines(lines)) == lines
  {
    if |lines| == 1 {
      assert SingleLine(lines[0]);
    } else {
      var head := lines[0];
      var rest := JoinLines(lines[1..]);
      var s := head + "\n" + rest;
      assert SingleLine(head);
      assert s[|head|] == '\n';
      assert '\n' in s;
      var i := NewlineIndex(s);
      assert s[..|head|] == head;
      assert i == |head|;
      assert s[i + 1..] == rest;
      SplitJoin(lines[1..]);
      assert lines == [head] + lines[1..];
    }
  }
}
