/** Instruction names: how a stored name is read back (with the `%`
    virtual-register sigil), and a generator of fresh names with separate
    namespaces for values and for blocks. */
module Naming {
  import opened Wrappers
  import opened Errors
  import opened Text

  /** The `name` getter of an instruction whose stored name is `stored`:
      None stays None, a name without the leading `%` gets one, and an
      empty name fails on `name[0]`. */
  function ReadName(stored: Option<string>): (r: Result<Option<string>, Error>)
    ensures stored.None? <==> r == Success(None)
    ensures r.Failure? <==> stored == Some("")
    ensures r.Failure? ==> r.error == IndexError
    ensures r.Success? && r.value.Some? ==> |r.value.value| > 0 && r.value.value[0] == '%'
  {
    match stored
    case None => Success(None)
    case Some(s) =>
      if s == "" then Failure(IndexError)
      else if s[0] != '%' then Success(Some("%" + s))
      else Success(Some(s))
  }

  /** A non-empty stored name reads back unchanged when it already carries
      the sigil, and with exactly one `%` prepended when it does not. */
  lemma ReadNameAddsOneSigil(s: string)
    requires s != ""
    ensures ReadName(Some(s)).Success? && ReadName(Some(s)).value.Some?
    ensures var t := ReadName(Some(s)).value.value;
            (s[0] == '%' ==> t == s) && (s[0] != '%' ==> t == "%" + s && t[1..] == s)
  {
  }

  /** Reading back is idempotent: storing a read name and reading it again
      gives the same name. */
  lemma ReadNameIdempotent(s: string)
    requires s != ""
    ensures var t := ReadName(Some(s)).value.value; ReadName(Some(t)) == Success(Some(t))
  {
    ReadNameAddsOneSigil(s);
  }

  /** A name generator: one implementation of the contract the IR core
      relies on (a non-empty name, never issued before in its namespace).
      Values are numbered 1, 2, ...; block names are the requested name,
      a dot and a counter. */
  class NameGenerator {
    var values: seq<string>
    var blockRequests: seq<string>
    var blocks: seq<string>

    ghost predicate Valid()
      reads this
    {
      && (forall k :: 0 <= k < |values| ==> values[k] == NatToString(k + 1))
      && |blockRequests| == |blocks|
      && (forall k :: 0 <= k < |blocks| ==> blocks[k] == blockRequests[k] + "." + NatToString(k))
    }

    constructor ()
      ensures Valid() && values == [] && blocks == []
    {
      values, blockRequests, blocks := [], [], [];
    }

    /** `generate(inst)`: a fresh name in the value namespace. */
    method Generate() returns (n: string)
      requires Valid()
      modifies this
      ensures Valid()
      ensures n != "" && n !in old(values)
      ensures values == old(values) + [n] && blocks == old(blocks)
    {
      n := NatToString(|values| + 1);
      forall k | 0 <= k < |values|
        ensures values[k] != n
      {
        NatToStringInjective(k + 1, |values| + 1);
      }
      values := values + [n];
    }

    /** `generate_bb(requested)`: a fresh name in the block namespace. */
    method GenerateBlock(requested: string) returns (n: string)
      requires Valid()
      modifies this
      ensures Valid()
      ensures n != "" && n !in old(blocks)
      ensures blocks == old(blocks) + [n] && values == old(values)
    {
      n := requested + "." + NatToString(|blocks|);
      forall k | 0 <= k < |blocks|
        ensures blocks[k] != n
      {
        DottedNamesDistinct(blockRequests[k], k, requested, |blocks|);
      }
      blockRequests := blockRequests + [requested];
      blocks := blocks + [n];
    }
  }

  /** Names built as prefix, dot, counter differ whenever the counters
      differ, whatever the prefixes: the counter is the digits after the
      last dot. */
  lemma DottedNamesDistinct(a: string, m: nat, b: string, n: nat)
    requires m != n
    ensures a + "." + NatToString(m) != b + "." + NatToString(n)
  {
    var dm, dn := NatToString(m), NatToString(n);
    var s, t := a + "." + dm, b + "." + dn;
    if s == t {
      if |dm| == |dn| {
        assert dm == s[|s| - |dm|..];
        assert dn == t[|t| - |dn|..];
        NatToStringInjective(m, n);
      } else if |dm| < |dn| {
        DotInsideNumeral(a, dm, b, dn);
      } else {
        DotInsideNumeral(b, dn, a, dm);
      }
    }
  }

  lemma DotInsideNumeral(a: string, d: string, b: string, e: string)
    requires IsNumeral(e) && |d| < |e|
    ensures a + "." + d != b + "." + e
  {
    var s, t := a + "." + d, b + "." + e;
    var q := |s| - |d| - 1;
    assert s[q] == '.';
  }
}
