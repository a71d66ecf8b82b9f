/** The ARM classifier applied to the remote `uname -m` output. */
module Arch {
  import opened Strings

  /** The four-way disjunction exactly as the tool writes it. */
  predicate IsArm(arch: string)
    ensures IsArm(arch) ==> 3 <= |arch|
  {
    || StartsWith(arch, "arm")
    || StartsWith(arch, "aarch64")
    || StartsWith(arch, "armv")
    || Contains(arch, "arm")
  }

  /** The `arm` and `armv` prefix tests are subsumed by the containment test:
      only "contains arm" and "starts with aarch64" decide. */
  lemma {:induction false} IsArmReduced(arch: string)
    ensures IsArm(arch) <==> Contains(arch, "arm") || StartsWith(arch, "aarch64")
  {
    if StartsWith(arch, "armv") {
      assert arch[..3] == "armv"[..3];
    }
    if StartsWith(arch, "arm") {
      assert Contains(arch, "arm");
    }
  }

  /** ARM means: "arm" occurs somewhere, or the name starts with "aarch64". */
  lemma IsArmIffOccurs(arch: string)
    ensures IsArm(arch) <==> (exists i :: OccursAt(arch, "arm", i)) || StartsWith(arch, "aarch64")
  {
    IsArmReduced(arch);
    ContainsIffOccurs(arch, "arm");
  }

  /** The architecture names the tool accepts. */
  lemma ArmNamesAccepted()
    ensures IsArm("armv7l") && IsArm("armv6l") && IsArm("aarch64")
    ensures IsArm("arm64") && IsArm("armv8l") && IsArm("armhf")
  {
  }

  /** The architecture names the tool rejects. */
  lemma {:induction false} OtherNamesRejected()
    ensures !IsArm("x86_64") && !IsArm("i686") && !IsArm("i386")
    ensures !IsArm("s390x") && !IsArm("ppc64le") && !IsArm("mips64")
  {
    IntelNamesRejected();
    ServerNamesRejected();
  }

  /** The 32- and 64-bit Intel names are not ARM. */
  lemma {:induction false} IntelNamesRejected()
    ensures !IsArm("x86_64") && !IsArm("i686") && !IsArm("i386")
  {
    NoArmIn("x86_64");
    NoArmIn("i686");
    NoArmIn("i386");
  }

  /** The mainframe, POWER and MIPS names are not ARM. */
  lemma {:induction false} ServerNamesRejected()
    ensures !IsArm("s390x") && !IsArm("ppc64le") && !IsArm("mips64")
  {
    NoArmIn("s390x");
    NoArmIn("ppc64le");
    NoArmIn("mips64");
  }

  /** A name without the letter 'a' is not ARM. */
  lemma NoArmIn(arch: string)
    requires forall k :: 0 <= k < |arch| ==> arch[k] != 'a'
    ensures !IsArm(arch)
  {
    IsArmIffOccurs(arch);
    forall i ensures !OccursAt(arch, "arm", i) {
      if 0 <= i && i + 3 <= |arch| {
        assert arch[i..i + 3][0] == arch[i];
      }
    }
    if |arch| >= 7 {
      assert arch[..7][0] == arch[0];
    }
  }
}
