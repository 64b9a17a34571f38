/** `to_safe`: turns an arbitrary word into a name usable as an Ansible group. */
module SafeName {

  /** The characters the substitution keeps: the class `[A-Za-z0-9-]`. */
  predicate IsSafeChar(c: char)
  {
    ('A' <= c <= 'Z') || ('a' <= c <= 'z') || ('0' <= c <= '9') || c == '-'
  }

  /** The alphabet of every result: the kept characters plus the underscore. */
  predicate IsGroupChar(c: char)
  {
    IsSafeChar(c) || c == '_'
  }

  /** Every character outside `[A-Za-z0-9-]` is replaced by `_`; the others stay. */
  function ToSafe(word: string): (r: string)
    ensures |r| == |word|
    ensures forall i :: 0 <= i < |word| && IsSafeChar(word[i]) ==> r[i] == word[i]
    ensures forall i :: 0 <= i < |word| && !IsSafeChar(word[i]) ==> r[i] == '_'
  {
    if word == [] then []
    else [if IsSafeChar(word[0]) then word[0] else '_'] + ToSafe(word[1..])
  }

  /** Every character of the result lies in `[A-Za-z0-9_-]`. */
  lemma ToSafeAlphabet(word: string)
    ensures forall i :: 0 <= i < |ToSafe(word)| ==> IsGroupChar(ToSafe(word)[i])
  {
  }

  /** A word is left unchanged exactly when all of its characters lie in
      `[A-Za-z0-9_-]` (the underscore is replaced by itself). */
  lemma ToSafeFixedPoints(word: string)
    ensures ToSafe(word) == word <==> forall i :: 0 <= i < |word| ==> IsGroupChar(word[i])
  {
    var r := ToSafe(word);
    if forall i :: 0 <= i < |word| ==> IsGroupChar(word[i]) {
      forall i | 0 <= i < |word|
        ensures r[i] == word[i]
      {
        if !IsSafeChar(word[i]) {
          assert word[i] == '_';
        }
      }
    } else {
      var i :| 0 <= i < |word| && !IsGroupChar(word[i]);
      assert r[i] == '_';
      assert r[i] != word[i];
    }
  }

  /** Applying the substitution twice gives the same name as applying it once. */
  lemma ToSafeIdempotent(word: string)
    ensures ToSafe(ToSafe(word)) == ToSafe(word)
  {
    var once := ToSafe(word);
    var twice := ToSafe(once);
    forall i | 0 <= i < |once|
      ensures twice[i] == once[i]
    {
      if !IsSafeChar(once[i]) {
        assert !IsSafeChar(word[i]);
      }
    }
  }
}
