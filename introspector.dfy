/** The JavaBeans property-name rule (section 8.8 of the JavaBeans 1.01
    specification) that the naming strategy applies to what it strips out of a
    method name: the first character is lower-cased, unless the first two
    characters are both upper case, and the empty string is left alone. */
module Introspector {

  /** Character.isUpperCase, for the ASCII letters. */
  predicate IsUpperCase(c: char) {
    'A' <= c <= 'Z'
  }

  /** Character.toLowerCase, for the ASCII letters. */
  function ToLowerCase(c: char): (d: char)
    ensures !IsUpperCase(d)
    ensures IsUpperCase(c) ==> d as int - c as int == 'a' as int - 'A' as int
    ensures !IsUpperCase(c) ==> d == c
  {
    if IsUpperCase(c) then (c as int - 'A' as int + 'a' as int) as char else c
  }

  /** True when a name keeps its capitals: it starts with two upper-case letters,
      as in "URL" or "FOOBah". */
  predicate StartsWithAcronym(name: string) {
    |name| > 1 && IsUpperCase(name[1]) && IsUpperCase(name[0])
  }

  /** IntrospectorUtils.decapitalize. */
  function Decapitalize(name: string): (r: string)
    ensures |r| == |name|
    ensures |name| > 0 ==> r[1..] == name[1..]
    ensures StartsWithAcronym(name) ==> r == name
    ensures |name| > 0 && !StartsWithAcronym(name) ==> r[0] == ToLowerCase(name[0]) && !IsUpperCase(r[0])
  {
    if |name| == 0 then name
    else if StartsWithAcronym(name) then name
    else [ToLowerCase(name[0])] + name[1..]
  }

  /** Applying the rule twice gives what applying it once gives: a decapitalized
      name is a fixed point. */
  lemma {:induction false} DecapitalizeIdempotent(name: string)
    ensures Decapitalize(Decapitalize(name)) == Decapitalize(name)
  {
    var once := Decapitalize(name);
    if |name| > 0 && !StartsWithAcronym(name) {
      assert !IsUpperCase(once[0]);
      assert !StartsWithAcronym(once);
      assert once[0] == ToLowerCase(once[0]);
      assert Decapitalize(once) == [once[0]] + once[1..];
    }
  }
}
