/** The quit key: `cv2.waitKey(1) & 0xFF == ord('q')` after an iteration, modelled as
    the set of iterations (counted from 0) after which the key is reported. */
module QuitKey {
  /** The quit key was not read after any of the first `n` iterations. */
  predicate Quiet(presses: set<nat>, n: nat)
  {
    n == 0 || (Quiet(presses, n - 1) && n - 1 !in presses)
  }

  /** After `n` iterations: either the loop broke after the last of them, the first
      after which the quit key was read, or the key was not read after any of them. */
  predicate Settled(presses: set<nat>, n: nat, halted: bool)
  {
    if halted then 1 <= n && Quiet(presses, n - 1) && n - 1 in presses else Quiet(presses, n)
  }

  lemma SettleNext(presses: set<nat>, k: nat, halt: bool)
    requires Quiet(presses, k) && halt == (k in presses)
    ensures Settled(presses, k + 1, halt)
  {
  }

  /** `Quiet` means what it says: no iteration below `n` read the quit key. */
  lemma {:induction false} QuietMeansNoPress(presses: set<nat>, n: nat)
    ensures Quiet(presses, n) <==> forall k :: 0 <= k < n ==> k !in presses
  {
    if n > 0 {
      QuietMeansNoPress(presses, n - 1);
    }
  }
}
