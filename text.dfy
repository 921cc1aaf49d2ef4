/** The sign and magnitude structure of `str(q)`. */
module QuaternionText {
  import opened Quaternions

  /** The prefix is `"- "` exactly for negative components, `"+ "` otherwise. */
  lemma SignPrefixIff(c: real)
    ensures SignPrefix(c) == "- " <==> c < 0.0
    ensures SignPrefix(c) == "+ " <==> c >= 0.0
  {}

  /** A term's sign prefix and absolute value together recover the component. */
  lemma TermRecoversComponent(c: real)
    ensures Abs(c) >= 0.0
    ensures (if SignPrefix(c) == "- " then -Abs(c) else Abs(c)) == c
  {}

  /** Negating a non-zero component flips its prefix and keeps its magnitude. */
  lemma TermOfNegation(c: real)
    requires c != 0.0
    ensures Abs(-c) == Abs(c) && SignPrefix(-c) != SignPrefix(c)
  {}

  /** Conjugating changes each printed vector term only in sign, never in magnitude. */
  lemma StrOfConjugate(q: Quat)
    ensures var c := Conjugate(q);
      && Abs(c.x) == Abs(q.x) && Abs(c.y) == Abs(q.y) && Abs(c.z) == Abs(q.z)
      && (q.x != 0.0 ==> SignPrefix(c.x) != SignPrefix(q.x))
      && (q.y != 0.0 ==> SignPrefix(c.y) != SignPrefix(q.y))
      && (q.z != 0.0 ==> SignPrefix(c.z) != SignPrefix(q.z))
  {}

  /** `1 + 2i + 3j + 4k` prints as such; in `1 - 2i + 3j - 4k` the signs are pulled out of the components. */
  lemma StrExamples(render: real -> string)
    ensures Str(Quat(1.0, 2.0, 3.0, 4.0), render)
         == render(1.0) + " + " + render(2.0) + "i + " + render(3.0) + "j + " + render(4.0) + "k"
    ensures Str(Quat(1.0, -2.0, 3.0, -4.0), render)
         == render(1.0) + " - " + render(2.0) + "i + " + render(3.0) + "j - " + render(4.0) + "k"
  {}
}
