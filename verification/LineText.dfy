/** Where lines end. */
module LineText {

  /** The first newline at or after i, or the end of the text. */
  function LineEnd(t: string, i: nat): (j: nat)
    requires i <= |t|
    ensures i <= j <= |t|
    ensures j < |t| ==> t[j] == '\n'
    ensures forall k :: i <= k < j ==> t[k] != '\n'
    decreases |t| - i
  {
    if i < |t| && t[i] != '\n' then LineEnd(t, i + 1) else i
  }

  lemma {:induction false} LineEndIs(t: string, i: nat, j: nat)
    requires i <= j <= |t| && (j < |t| ==> t[j] == '\n')
    requires forall k :: i <= k < j ==> t[k] != '\n'
    ensures LineEnd(t, i) == j
    decreases j - i
  {
    if i < j {
      LineEndIs(t, i + 1, j);
    }
  }
}
