/** The runner and the manifest tool each have their own list of phases; they agree. */
module PhaseNames {
  import opened ManifestModel
  import opened ManifestDerive
  import opened WatchdogModel

  lemma PhaseIsKnown(p: Section)
    requires Place(p) >= 0
    ensures NameOf(p) in FULL_PHASES
    ensures NameOf(p) in STANDARD_PHASES <==> !ExtendedOnly(p)
  {
  }

  lemma StandardName(n: string) returns (p: Section)
    requires n in STANDARD_PHASES
    ensures Place(p) >= 0 && NameOf(p) == n
  {
    p := if n == "ior-easy-write" then IorEasyWrite else if n == "mdtest-easy-write" then MdtestEasyWrite
    else if n == "ior-hard-write" then IorHardWrite else if n == "mdtest-hard-write" then MdtestHardWrite
    else if n == "find" then Find else if n == "ior-easy-read" then IorEasyRead
    else if n == "mdtest-easy-stat" then MdtestEasyStat else if n == "ior-hard-read" then IorHardRead
    else if n == "mdtest-hard-stat" then MdtestHardStat else if n == "mdtest-easy-delete" then MdtestEasyDelete
    else if n == "mdtest-hard-read" then MdtestHardRead else if n == "mdtest-hard-delete" then MdtestHardDelete
    else IorRnd4KEasyRead;
  }

  lemma ExtendedName(n: string) returns (p: Section)
    requires n in FULL_PHASES && n !in STANDARD_PHASES
    ensures Place(p) >= 0 && NameOf(p) == n
  {
    p := if n == "ior-rnd4K-write" then IorRnd4KWrite else if n == "ior-rnd1MB-write" then IorRnd1MBWrite
    else if n == "mdworkbench-create" then MdworkbenchCreate else if n == "find-easy" then FindEasy
    else if n == "ior-rnd4K-read" then IorRnd4KRead else if n == "ior-rnd1MB-read" then IorRnd1MBRead
    else if n == "find-hard" then FindHard else if n == "mdworkbench-bench" then MdworkbenchBench
    else MdworkbenchDelete;
  }

  lemma NameIsPhase(n: string) returns (p: Section)
    requires n in FULL_PHASES
    ensures Place(p) >= 0 && NameOf(p) == n
  {
    if n in STANDARD_PHASES {
      p := StandardName(n);
    } else {
      p := ExtendedName(n);
    }
  }

  /** The phases that the watchdog knows are those of the extended mode, and its default
      phases are those of the standard mode. */
  lemma PhasesAgree(n: string)
    ensures n in FULL_PHASES <==> exists p :: p in EXTENDED_ORDER && NameOf(p) == n
    ensures n in STANDARD_PHASES <==> exists p :: p in STANDARD && NameOf(p) == n
  {
    if n in FULL_PHASES {
      var p := NameIsPhase(n);
      PlaceIsIndex(p);
      PhaseIsKnown(p);
    }
    forall p | p in EXTENDED_ORDER
      ensures Place(p) >= 0 && NameOf(p) in FULL_PHASES && (NameOf(p) in STANDARD_PHASES <==> !ExtendedOnly(p))
    {
      var j :| 0 <= j < |EXTENDED_ORDER| && EXTENDED_ORDER[j] == p;
      Places(j);
      PhaseIsKnown(p);
    }
  }
}
