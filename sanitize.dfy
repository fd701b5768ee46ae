/** `presswork/sanitize.py`: removing control characters. */
module Sanitize {
  import opened PyStr

  /** Code points 0-31 and 127-159. */
  predicate IsControl(c: char) {
    c as int < 32 || (127 <= c as int < 160)
  }

  /** `remove_control_characters(s)`: every control character is removed and
      every other character is kept. */
  function RemoveControlCharacters(s: string): (r: string)
    ensures forall c :: c in r <==> c in s && !IsControl(c)
  {
    RemoveWhere(s, IsControl)
  }

  /** Removing control characters twice is the same as once. */
  lemma RemoveControlCharactersIdempotent(s: string)
    ensures RemoveControlCharacters(RemoveControlCharacters(s)) == RemoveControlCharacters(s)
  {
    RemoveWhereUnchanged(RemoveControlCharacters(s), IsControl);
  }

  /** A control character between two runs of ordinary text (the null byte
      in "hello\0world", say) is dropped and the text around it is kept. */
  lemma {:induction false} RemoveOneControl(before: string, c: char, after: string)
    requires IsControl(c)
    requires forall x :: x in before ==> !IsControl(x)
    requires forall x :: x in after ==> !IsControl(x)
    ensures RemoveControlCharacters(before + [c] + after) == before + after
  {
    RemoveWhereBetween(before, c, after, IsControl);
  }
}
