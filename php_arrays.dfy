/** The part of PHP's array library that the configuration object relies on. */
module PhpArrays {

  /** `in_array($needle, $haystack, true)`: scans the list front to back and
      reports whether some element is identical (`===`) to the needle.
      Identity of two values is Dafny equality; for strings that is equality
      of the whole character sequence, with no case folding and no numeric
      coercion (the loose `==` mode is not used by the source). */
  function InArrayStrict<T(==)>(needle: T, haystack: seq<T>): (found: bool)
    ensures found <==> needle in haystack
    ensures found <==> exists i :: 0 <= i < |haystack| && haystack[i] == needle
  {
    if haystack == [] then false
    else haystack[0] == needle || InArrayStrict(needle, haystack[1..])
  }
}
