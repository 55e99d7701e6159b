/** The student's four-digit keypad: digits accumulate up to four, the
    fourth one submits the code, and a wrong code is flagged and wiped. */
module StudentLogin {
  import opened Types
  import opened Store

  const CodeLength := 4

  predicate IsDigit(c: char) {
    '0' <= c <= '9'
  }

  class Keypad {
    var code: string
    var error: bool

    /** What the keypad can hold: at most four digits. */
    predicate Valid()
      reads this
    {
      |code| <= CodeLength && forall i :: 0 <= i < |code| ==> IsDigit(code[i])
    }

    constructor ()
      ensures Valid() && code == "" && !error
    {
      code := "";
      error := false;
    }

    /** A digit key. Below four digits it is appended and clears the error;
        the fourth digit submits the code, and a rejected code raises the
        error and empties the keypad. A press on a full keypad does nothing. */
    method HandlePress(digit: char, store: AppStore) returns (submitted: bool, ok: bool)
      requires Valid() && IsDigit(digit)
      modifies this, store`activeStudentId
      ensures Valid()
      ensures submitted <==> |old(code)| == CodeLength - 1
      ensures ok ==> submitted
      ensures submitted ==> (ok <==> exists i :: 0 <= i < |store.students| && store.students[i].accessCode == old(code) + [digit])
      ensures ok ==> store.activeStudentId == StudentLoginId(store.students, old(code) + [digit]) && code == old(code) + [digit] && !error
      ensures submitted && !ok ==> code == "" && error && store.activeStudentId == old(store.activeStudentId)
      ensures !submitted && |old(code)| < CodeLength ==> code == old(code) + [digit] && !error
      ensures |old(code)| == CodeLength ==> code == old(code) && error == old(error)
      ensures !ok ==> store.activeStudentId == old(store.activeStudentId)
    {
      submitted, ok := false, false;
      if |code| < CodeLength {
        var newCode := code + [digit];
        code := newCode;
        error := false;
        if |newCode| == CodeLength {
          submitted := true;
          ok := store.LoginStudent(newCode);
          if !ok {
            error := true;
            code := "";
          }
        }
      }
    }

    /** Backspace drops the last digit, if any, and clears the error. */
    method HandleBackspace()
      requires Valid()
      modifies this
      ensures Valid()
      ensures code == if old(code) == "" then "" else old(code)[..|old(code)| - 1]
      ensures !error
    {
      if code != "" {
        code := code[..|code| - 1];
      }
      error := false;
    }
  }
}
