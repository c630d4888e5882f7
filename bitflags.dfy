/** `FlagsExt::from_names` (`rust-utilities/hartex-bitflags-utils/src/lib.rs`): the flags of
    a list of names. A flags value is modelled as the set of its bits; the flag type's own
    `from_name` table is a parameter. */
module BitflagsUtils {
  import opened Wrappers

  /** A flags value: the set of its bits. */
  type Flags = set<nat>

  /** The union of the flags of the recognised names among the first `k`. */
  function FromNamesUpTo(names: seq<string>, fromName: string -> Option<Flags>, k: nat): Flags
    requires k <= |names|
  {
    if k == 0 then {}
    else
      var flags := FromNamesUpTo(names, fromName, k - 1);
      match fromName(names[k - 1])
      case None => flags
      case Some(flag) => flags + flag
  }

  /** `from_names`: start from the empty value and insert the flag of every name that
      `from_name` recognises, in order; other names are ignored. */
  method FromNames(names: seq<string>, fromName: string -> Option<Flags>) returns (flags: Flags)
    ensures flags == FromNamesUpTo(names, fromName, |names|)
  {
    flags := {};
    var i := 0;
    while i < |names|
      invariant 0 <= i <= |names|
      invariant flags == FromNamesUpTo(names, fromName, i)
    {
      var flag := fromName(names[i]);
      if flag.Some? {
        flags := flags + flag.value;
      }
      i := i + 1;
    }
  }

  /** A bit is set exactly when some recognised name among the first `k` has it. */
  lemma {:induction false} FromNamesMembers(names: seq<string>, fromName: string -> Option<Flags>, k: nat, b: nat)
    requires k <= |names|
    ensures b in FromNamesUpTo(names, fromName, k) <==>
      exists i :: 0 <= i < k && fromName(names[i]).Some? && b in fromName(names[i]).value
  {
    if k > 0 {
      FromNamesMembers(names, fromName, k - 1, b);
      if b in FromNamesUpTo(names, fromName, k - 1) {
        var i :| 0 <= i < k - 1 && fromName(names[i]).Some? && b in fromName(names[i]).value;
        assert 0 <= i < k;
      }
    }
  }

  /** The flag of every recognised name is contained in the result. */
  lemma RecognisedContained(names: seq<string>, fromName: string -> Option<Flags>, i: nat)
    requires i < |names| && fromName(names[i]).Some?
    ensures fromName(names[i]).value <= FromNamesUpTo(names, fromName, |names|)
  {
    forall b | b in fromName(names[i]).value ensures b in FromNamesUpTo(names, fromName, |names|) {
      FromNamesMembers(names, fromName, |names|, b);
    }
  }

  /** The result depends only on which names occur: not on their order, nor on how often
      each occurs. */
  lemma OrderAndRepetitionIrrelevant(a: seq<string>, b: seq<string>, fromName: string -> Option<Flags>)
    requires forall n :: n in a <==> n in b
    ensures FromNamesUpTo(a, fromName, |a|) == FromNamesUpTo(b, fromName, |b|)
  {
    forall x | x in FromNamesUpTo(a, fromName, |a|) ensures x in FromNamesUpTo(b, fromName, |b|) {
      FromNamesMembers(a, fromName, |a|, x);
      var i :| 0 <= i < |a| && fromName(a[i]).Some? && x in fromName(a[i]).value;
      assert a[i] in b;
      var j :| 0 <= j < |b| && b[j] == a[i];
      FromNamesMembers(b, fromName, |b|, x);
    }
    forall x | x in FromNamesUpTo(b, fromName, |b|) ensures x in FromNamesUpTo(a, fromName, |a|) {
      FromNamesMembers(b, fromName, |b|, x);
      var j :| 0 <= j < |b| && fromName(b[j]).Some? && x in fromName(b[j]).value;
      assert b[j] in a;
      var i :| 0 <= i < |a| && a[i] == b[j];
      FromNamesMembers(a, fromName, |a|, x);
    }
  }

  /** Unrecognised names can be dropped without changing the result. */
  lemma UnrecognisedIgnored(names: seq<string>, extra: string, fromName: string -> Option<Flags>)
    requires fromName(extra).None?
    ensures FromNamesUpTo(names + [extra], fromName, |names| + 1) == FromNamesUpTo(names, fromName, |names|)
  {
    FromNamesPrefix(names, [extra], fromName, |names|);
  }

  /** Extending the list past `k` does not change the union over the first `k` names. */
  lemma {:induction false} FromNamesPrefix(names: seq<string>, more: seq<string>, fromName: string -> Option<Flags>, k: nat)
    requires k <= |names|
    ensures FromNamesUpTo(names + more, fromName, k) == FromNamesUpTo(names, fromName, k)
  {
    if k > 0 {
      FromNamesPrefix(names, more, fromName, k - 1);
      assert (names + more)[k - 1] == names[k - 1];
    }
  }
}
