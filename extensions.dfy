/**
 * The ordered list of extensions that `Markdown.render` derives from the
 * configuration and hands to both the parser and the renderer.
 */
module Extensions {
  import opened Configuration

  /** The order in which `render` adds extensions; not the declaration order of `Config`. */
  const RegistrationOrder: seq<Extension> := [
    AutolinkExtension, StrikethroughExtension, TablesExtension, FootnotesExtension,
    YamlFrontMatterExtension, InsExtension, ImageAttributesExtension,
    TaskListItemsExtension, HeadingAnchorExtension]

  /** The order in which `Config` declares its flags. */
  const DeclarationOrder: seq<Extension> := [
    AutolinkExtension, StrikethroughExtension, TablesExtension, FootnotesExtension,
    HeadingAnchorExtension, InsExtension, YamlFrontMatterExtension,
    ImageAttributesExtension, TaskListItemsExtension]

  /** The position of `e` in the registration order. */
  function Rank(e: Extension): (k: nat)
    ensures k < |RegistrationOrder| && RegistrationOrder[k] == e
  {
    match e
    case AutolinkExtension => 0
    case StrikethroughExtension => 1
    case TablesExtension => 2
    case FootnotesExtension => 3
    case YamlFrontMatterExtension => 4
    case InsExtension => 5
    case ImageAttributesExtension => 6
    case TaskListItemsExtension => 7
    case HeadingAnchorExtension => 8
  }

  predicate InRegistrationOrder(s: seq<Extension>) {
    forall i, j :: 0 <= i < j < |s| ==> Rank(s[i]) < Rank(s[j])
  }

  /** The elements of `order` whose flag is set, keeping their order. */
  function Select(order: seq<Extension>, f: Flags): seq<Extension>
    decreases |order|
  {
    if order == [] then []
    else (if f.Enabled(order[0]) then [order[0]] else []) + Select(order[1..], f)
  }

  /** An extension is selected exactly when it is in `order` and its flag is set. */
  lemma {:induction false} SelectMembers(order: seq<Extension>, f: Flags)
    ensures forall e :: e in Select(order, f) <==> e in order && f.Enabled(e)
    decreases |order|
  {
    if order != [] {
      SelectMembers(order[1..], f);
      assert order == [order[0]] + order[1..];
    }
  }

  /** Selecting keeps the registration order. */
  lemma {:induction false} SelectOrdered(order: seq<Extension>, f: Flags)
    requires InRegistrationOrder(order)
    ensures InRegistrationOrder(Select(order, f))
    decreases |order|
  {
    if order != [] {
      var rest := Select(order[1..], f);
      SelectOrdered(order[1..], f);
      SelectMembers(order[1..], f);
      forall k | 0 <= k < |rest| ensures Rank(order[0]) < Rank(rest[k]) {
        RankBelowTail(order, rest[k]);
      }
    }
  }

  lemma RankBelowTail(order: seq<Extension>, x: Extension)
    requires InRegistrationOrder(order) && order != [] && x in order[1..]
    ensures Rank(order[0]) < Rank(x)
  {
    var m :| 0 <= m < |order[1..]| && order[1..][m] == x;
    assert order[m + 1] == x;
  }

  lemma RegistrationOrderComplete(e: Extension)
    ensures e in RegistrationOrder
  {
    assert RegistrationOrder[Rank(e)] == e;
  }

  lemma RegistrationOrderSorted()
    ensures InRegistrationOrder(RegistrationOrder)
  {
    forall i, j | 0 <= i < j < |RegistrationOrder|
      ensures Rank(RegistrationOrder[i]) < Rank(RegistrationOrder[j])
    {
      assert Rank(RegistrationOrder[i]) == i && Rank(RegistrationOrder[j]) == j;
    }
  }

  /** The extension list `render` builds from the flags `f`. */
  function ActiveExtensions(f: Flags): seq<Extension> {
    Select(RegistrationOrder, f)
  }

  /**
   * The list holds an extension exactly when its flag is set, follows the
   * registration order, and has no duplicates.
   */
  lemma ActiveExtensionsSpec(f: Flags)
    ensures forall e :: e in ActiveExtensions(f) <==> f.Enabled(e)
    ensures InRegistrationOrder(ActiveExtensions(f))
    ensures forall i, j :: 0 <= i < j < |ActiveExtensions(f)| ==> ActiveExtensions(f)[i] != ActiveExtensions(f)[j]
  {
    RegistrationOrderSorted();
    forall e ensures e in RegistrationOrder { RegistrationOrderComplete(e); }
    SelectMembers(RegistrationOrder, f);
    SelectOrdered(RegistrationOrder, f);
  }

  /**
   * A list in registration order is determined by its members: the
   * extension list is the only ordered list of the enabled extensions.
   */
  lemma {:induction false} OrderedListUnique(a: seq<Extension>, b: seq<Extension>)
    requires InRegistrationOrder(a) && InRegistrationOrder(b)
    requires forall e :: e in a <==> e in b
    ensures a == b
    decreases |a|
  {
    if a == [] || b == [] {
      EmptyIffNoMembers(a);
      EmptyIffNoMembers(b);
    } else {
      assert a[0] in b && b[0] in a;
      var i :| 0 <= i < |b| && b[i] == a[0];
      var j :| 0 <= j < |a| && a[j] == b[0];
      FirstIsLeast(b, i);
      FirstIsLeast(a, j);
      assert a[0] == b[0] by {
        assert RegistrationOrder[Rank(a[0])] == a[0] && RegistrationOrder[Rank(b[0])] == b[0];
      }
      forall e ensures e in a[1..] <==> e in b[1..] {
        TailMembers(a, e);
        TailMembers(b, e);
      }
      OrderedListUnique(a[1..], b[1..]);
      assert a == [a[0]] + a[1..] && b == [b[0]] + b[1..];
    }
  }

  lemma EmptyIffNoMembers(s: seq<Extension>)
    ensures s == [] <==> forall e :: e !in s
  {
    if s != [] {
      assert s[0] in s;
    }
  }

  lemma FirstIsLeast(s: seq<Extension>, k: nat)
    requires InRegistrationOrder(s) && k < |s|
    ensures Rank(s[0]) <= Rank(s[k])
  {
    if 0 < k {
      assert Rank(s[0]) < Rank(s[k]);
    }
  }

  lemma TailMembers(s: seq<Extension>, e: Extension)
    requires InRegistrationOrder(s) && s != []
    ensures e in s[1..] <==> e in s && e != s[0]
  {
    if e in s[1..] {
      var k :| 0 <= k < |s[1..]| && s[1..][k] == e;
      assert s[k + 1] == e && Rank(s[0]) < Rank(s[k + 1]);
    }
    if e in s && e != s[0] {
      var k :| 0 <= k < |s| && s[k] == e;
      assert s[1..][k - 1] == e;
    }
  }

  /**
   * `exts` is what the conditional additions of `render` have built after
   * the first `k` extensions of the registration order.
   */
  ghost predicate BuiltUpTo(exts: seq<Extension>, f: Flags, k: nat) {
    && InRegistrationOrder(exts)
    && (forall i :: 0 <= i < |exts| ==> Rank(exts[i]) < k)
    && (forall e :: e in exts <==> f.Enabled(e) && Rank(e) < k)
  }

  /**
   * `[e]` when the flag for `e` is set, else nothing: one conditional `add`.
   * `Markdown.AddIfEnabled` is the method that runs it; its contract names this
   * function so that the nine additions of `BuildExtensions` stay cheap to verify.
   */
  function AddIf(f: Flags, e: Extension): seq<Extension> {
    if f.Enabled(e) then [e] else []
  }

  /** One more conditional `add`, for the extension with the next rank. */
  lemma BuildStep(exts: seq<Extension>, f: Flags, e: Extension)
    requires BuiltUpTo(exts, f, Rank(e))
    ensures BuiltUpTo(exts + AddIf(f, e), f, Rank(e) + 1)
  {
    var r := exts + AddIf(f, e);
    forall x ensures x in r <==> f.Enabled(x) && Rank(x) < Rank(e) + 1 {
      if Rank(x) == Rank(e) {
        assert RegistrationOrder[Rank(x)] == x && RegistrationOrder[Rank(e)] == e;
      }
    }
  }

  /** The list after the first `k` conditional additions of `render`. */
  function Built(f: Flags, k: nat): seq<Extension>
    requires k <= |RegistrationOrder|
  {
    if k == 0 then [] else Built(f, k - 1) + AddIf(f, RegistrationOrder[k - 1])
  }

  /** One conditional addition takes the list built so far one rank further. */
  lemma BuiltNext(f: Flags, e: Extension, before: seq<Extension>, after: seq<Extension>)
    requires before == Built(f, Rank(e))
    requires after == before + AddIf(f, e)
    ensures after == Built(f, Rank(e) + 1)
  {
  }

  lemma {:induction false} BuiltInvariant(f: Flags, k: nat)
    requires k <= |RegistrationOrder|
    ensures BuiltUpTo(Built(f, k), f, k)
  {
    if k > 0 {
      BuiltInvariant(f, k - 1);
      assert Rank(RegistrationOrder[k - 1]) == k - 1;
      BuildStep(Built(f, k - 1), f, RegistrationOrder[k - 1]);
    }
  }

  /** Once all nine additions have run, the list built is the extension list. */
  lemma BuiltIsActive(f: Flags)
    ensures Built(f, |RegistrationOrder|) == ActiveExtensions(f)
  {
    BuiltInvariant(f, |RegistrationOrder|);
    ActiveExtensionsSpec(f);
    OrderedListUnique(Built(f, |RegistrationOrder|), ActiveExtensions(f));
  }

  /** The number of elements of `order` whose flag is set. */
  function CountIn(order: seq<Extension>, f: Flags): nat
    decreases |order|
  {
    if order == [] then 0 else (if f.Enabled(order[0]) then 1 else 0) + CountIn(order[1..], f)
  }

  lemma {:induction false} SelectLength(order: seq<Extension>, f: Flags)
    ensures |Select(order, f)| == CountIn(order, f)
    decreases |order|
  {
    if order != [] {
      SelectLength(order[1..], f);
    }
  }

  lemma CountInRegistrationOrder(f: Flags)
    ensures CountIn(RegistrationOrder, f) == f.Count()
  {
    var o := RegistrationOrder;
    assert o[1..][1..][1..][1..][1..][1..][1..][1..][1..] == [];
  }

  /** There is one extension in the list per flag that is set. */
  lemma ActiveExtensionsLength(f: Flags)
    ensures |ActiveExtensions(f)| == f.Count()
  {
    SelectLength(RegistrationOrder, f);
    CountInRegistrationOrder(f);
  }

  lemma {:induction false} SelectKeepsAllEnabled(order: seq<Extension>, f: Flags)
    requires forall k :: 0 <= k < |order| ==> f.Enabled(order[k])
    ensures Select(order, f) == order
    decreases |order|
  {
    if order != [] {
      SelectKeepsAllEnabled(order[1..], f);
      assert order == [order[0]] + order[1..];
    }
  }

  /** With every flag set the list is the whole registration order, which differs from the declaration order. */
  lemma AllEnabledList()
    ensures ActiveExtensions(AllEnabled) == RegistrationOrder
    ensures RegistrationOrder != DeclarationOrder
    ensures RegistrationOrder[8] == HeadingAnchorExtension && DeclarationOrder[4] == HeadingAnchorExtension
  {
    forall k | 0 <= k < |RegistrationOrder| ensures AllEnabled.Enabled(RegistrationOrder[k]) {
      AllEnabledEnablesAll(RegistrationOrder[k]);
    }
    SelectKeepsAllEnabled(RegistrationOrder, AllEnabled);
    assert RegistrationOrder[4] != DeclarationOrder[4];
  }

  /** With no flag set the list is empty. */
  lemma DefaultList()
    ensures ActiveExtensions(Default) == []
  {
    var r := ActiveExtensions(Default);
    ActiveExtensionsSpec(Default);
    if r != [] {
      DefaultDisablesAll(r[0]);
    }
  }
}
