/**
 * Function-name normalisation. When a disassembler database holds several
 * functions with the same name, IDA Pro disambiguates them by appending
 * `_<digits>`; `NormalizeFuncName` strips one such suffix again.
 * Digits are the ASCII digits and the suffix must reach the end of the name.
 */
module FuncNames {

  predicate IsDigit(c: char) { '0' <= c <= '9' }

  /** From position `p` on, `name` is an underscore followed by one or more digits. */
  predicate DupSuffixAt(name: string, p: int) {
    0 <= p && p + 1 < |name| && name[p] == '_' &&
    forall j :: p < j < |name| ==> IsDigit(name[j])
  }

  ghost predicate HasDupSuffix(name: string) {
    exists p :: DupSuffixAt(name, p)
  }

  /** The length of the longest run of digits at the end of `s`. */
  function TrailingDigits(s: string): (k: nat)
    ensures k <= |s|
    ensures forall j :: |s| - k <= j < |s| ==> IsDigit(s[j])
    ensures k < |s| ==> !IsDigit(s[|s| - k - 1])
  {
    if s == [] || !IsDigit(s[|s| - 1]) then 0 else TrailingDigits(s[..|s| - 1]) + 1
  }

  /** A duplicate-name suffix can start in one place only: right before the trailing digits. */
  lemma DupSuffixPosition(name: string, p: int)
    requires DupSuffixAt(name, p)
    ensures p == |name| - TrailingDigits(name) - 1
  {
  }

  /** The regular expression `_[0-9]+$` matches nowhere when the character before the trailing digits is not `_`. */
  lemma NoDupSuffix(name: string)
    requires var k := TrailingDigits(name); !(0 < k < |name| && name[|name| - k - 1] == '_')
    ensures !HasDupSuffix(name)
  {
  }

  /**
   * Removes a trailing `_<digits>` group if there is one. Python's `re.sub`
   * finds the leftmost match of `_[0-9]+$`; since it is anchored at the end,
   * there is at most one, so exactly one group is removed.
   */
  function NormalizeFuncName(name: string): (r: string)
    ensures r <= name
    ensures r == name <==> !HasDupSuffix(name)
    ensures r != name ==> DupSuffixAt(name, |r|)
    ensures r != name ==> forall j :: |r| < j < |name| ==> name[j] != '_'
  {
    var k := TrailingDigits(name);
    if 0 < k < |name| && name[|name| - k - 1] == '_' then
      assert DupSuffixAt(name, |name| - k - 1);
      name[..|name| - k - 1]
    else
      NoDupSuffix(name);
      name
  }

  /** Appending one `_<digits>` group to any name is undone by one normalisation. */
  lemma StripsOneGroup(base: string, digits: string)
    requires digits != []
    requires forall j :: 0 <= j < |digits| ==> IsDigit(digits[j])
    ensures NormalizeFuncName(base + "_" + digits) == base
  {
    var name := base + "_" + digits;
    assert DupSuffixAt(name, |base|);
    DupSuffixPosition(name, |base|);
    assert name[..|base|] == base;
  }

  /**
   * The pattern also removes the address from IDA's automatic names when
   * its hexadecimal digits happen all to be decimal ones.
   */
  lemma AutoNameAddressStripped()
    ensures NormalizeFuncName("sub_401000") == "sub"
    ensures NormalizeFuncName("sub_4010a0") == "sub_4010a0"
  {
    StripsOneGroup("sub", "401000");
    assert "sub" + "_" + "401000" == "sub_401000";
  }

  /** Only one group is removed per call, so normalisation is not idempotent. */
  lemma NotIdempotent()
    ensures NormalizeFuncName("a_1_2") == "a_1"
    ensures NormalizeFuncName(NormalizeFuncName("a_1_2")) == "a"
  {
  }
}
