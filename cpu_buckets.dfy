/** The CPU-mode buckets of `node_cpu_seconds_total` (src/lib.rs lines
    252-316): the label each summary gets and the fragment its filter looks
    for in a record's fingerprint. */
module CpuBuckets {
  import opened Text

  datatype CpuBucket = CpuBucket(labels: string, fragment: string)

  /** In the order the summaries are pushed. */
  const CPU_BUCKETS: seq<CpuBucket> := [
    CpuBucket("_idle", "idle"),
    CpuBucket("_irq", "_irq"),
    CpuBucket("_softirq", "_softirq"),
    CpuBucket("_system", "system"),
    CpuBucket("_user", "user"),
    CpuBucket("_iowait", "iowait"),
    CpuBucket("_nice", "nice"),
    CpuBucket("_steal", "steal")
  ]

  lemma NotContainedBecause(s: string, fragment: string, c: char)
    requires c in fragment && c !in s
    ensures !Contains(s, fragment)
  {
    ContainedCharacters(s, fragment);
  }

  /** A summary pushed for an earlier bucket is never picked up by a later
      bucket's filter: its label lacks some character of the later fragment. */
  lemma FragmentAbsent(i: int, j: int)
    requires 0 <= i < j < |CPU_BUCKETS|
    ensures !Contains(CPU_BUCKETS[i].labels, CPU_BUCKETS[j].fragment)
  {
    if j == 1 {
      FragmentAbsentBefore1(i);
    } else if j == 2 {
      FragmentAbsentBefore2(i);
    } else if j == 3 {
      FragmentAbsentBefore3(i);
    } else if j == 4 {
      FragmentAbsentBefore4(i);
    } else if j == 5 {
      FragmentAbsentBefore5(i);
    } else if j == 6 {
      FragmentAbsentBefore6(i);
    } else if j == 7 {
      FragmentAbsentBefore7(i);
    }
  }

  lemma FragmentAbsentBefore1(i: int)
    requires 0 <= i < 1
    ensures !Contains(CPU_BUCKETS[i].labels, CPU_BUCKETS[1].fragment)
  {
    if i == 0 {
      assert CPU_BUCKETS[0].labels == "_idle" && CPU_BUCKETS[1].fragment == "_irq";
      NotContainedBecause("_idle", "_irq", 'r');
    }
  }

  lemma FragmentAbsentBefore2(i: int)
    requires 0 <= i < 2
    ensures !Contains(CPU_BUCKETS[i].labels, CPU_BUCKETS[2].fragment)
  {
    if i == 0 {
      assert CPU_BUCKETS[0].labels == "_idle" && CPU_BUCKETS[2].fragment == "_softirq";
      NotContainedBecause("_idle", "_softirq", 's');
    } else if i == 1 {
      assert CPU_BUCKETS[1].labels == "_irq" && CPU_BUCKETS[2].fragment == "_softirq";
      NotContainedBecause("_irq", "_softirq", 's');
    }
  }

  lemma FragmentAbsentBefore3(i: int)
    requires 0 <= i < 3
    ensures !Contains(CPU_BUCKETS[i].labels, CPU_BUCKETS[3].fragment)
  {
    if i == 0 {
      assert CPU_BUCKETS[0].labels == "_idle" && CPU_BUCKETS[3].fragment == "system";
      NotContainedBecause("_idle", "system", 's');
    } else if i == 1 {
      assert CPU_BUCKETS[1].labels == "_irq" && CPU_BUCKETS[3].fragment == "system";
      NotContainedBecause("_irq", "system", 's');
    } else if i == 2 {
      assert CPU_BUCKETS[2].labels == "_softirq" && CPU_BUCKETS[3].fragment == "system";
      NotContainedBecause("_softirq", "system", 'y');
    }
  }

  lemma FragmentAbsentBefore4(i: int)
    requires 0 <= i < 4
    ensures !Contains(CPU_BUCKETS[i].labels, CPU_BUCKETS[4].fragment)
  {
    if i == 0 {
      assert CPU_BUCKETS[0].labels == "_idle" && CPU_BUCKETS[4].fragment == "user";
      NotContainedBecause("_idle", "user", 'u');
    } else if i == 1 {
      assert CPU_BUCKETS[1].labels == "_irq" && CPU_BUCKETS[4].fragment == "user";
      NotContainedBecause("_irq", "user", 'u');
    } else if i == 2 {
      assert CPU_BUCKETS[2].labels == "_softirq" && CPU_BUCKETS[4].fragment == "user";
      NotContainedBecause("_softirq", "user", 'u');
    } else if i == 3 {
      assert CPU_BUCKETS[3].labels == "_system" && CPU_BUCKETS[4].fragment == "user";
      NotContainedBecause("_system", "user", 'u');
    }
  }

  lemma FragmentAbsentBefore5(i: int)
    requires 0 <= i < 5
    ensures !Contains(CPU_BUCKETS[i].labels, CPU_BUCKETS[5].fragment)
  {
    if i == 0 {
      assert CPU_BUCKETS[0].labels == "_idle" && CPU_BUCKETS[5].fragment == "iowait";
      NotContainedBecause("_idle", "iowait", 'o');
    } else if i == 1 {
      assert CPU_BUCKETS[1].labels == "_irq" && CPU_BUCKETS[5].fragment == "iowait";
      NotContainedBecause("_irq", "iowait", 'o');
    } else if i == 2 {
      assert CPU_BUCKETS[2].labels == "_softirq" && CPU_BUCKETS[5].fragment == "iowait";
      NotContainedBecause("_softirq", "iowait", 'w');
    } else if i == 3 {
      assert CPU_BUCKETS[3].labels == "_system" && CPU_BUCKETS[5].fragment == "iowait";
      NotContainedBecause("_system", "iowait", 'i');
    } else if i == 4 {
      assert CPU_BUCKETS[4].labels == "_user" && CPU_BUCKETS[5].fragment == "iowait";
      NotContainedBecause("_user", "iowait", 'i');
    }
  }

  lemma FragmentAbsentBefore6(i: int)
    requires 0 <= i < 6
    ensures !Contains(CPU_BUCKETS[i].labels, CPU_BUCKETS[6].fragment)
  {
    if i == 0 {
      assert CPU_BUCKETS[0].labels == "_idle" && CPU_BUCKETS[6].fragment == "nice";
      NotContainedBecause("_idle", "nice", 'n');
    } else if i == 1 {
      assert CPU_BUCKETS[1].labels == "_irq" && CPU_BUCKETS[6].fragment == "nice";
      NotContainedBecause("_irq", "nice", 'n');
    } else if i == 2 {
      assert CPU_BUCKETS[2].labels == "_softirq" && CPU_BUCKETS[6].fragment == "nice";
      NotContainedBecause("_softirq", "nice", 'n');
    } else if i == 3 {
      assert CPU_BUCKETS[3].labels == "_system" && CPU_BUCKETS[6].fragment == "nice";
      NotContainedBecause("_system", "nice", 'n');
    } else if i == 4 {
      assert CPU_BUCKETS[4].labels == "_user" && CPU_BUCKETS[6].fragment == "nice";
      NotContainedBecause("_user", "nice", 'n');
    } else if i == 5 {
      assert CPU_BUCKETS[5].labels == "_iowait" && CPU_BUCKETS[6].fragment == "nice";
      NotContainedBecause("_iowait", "nice", 'n');
    }
  }

  lemma FragmentAbsentBefore7(i: int)
    requires 0 <= i < 7
    ensures !Contains(CPU_BUCKETS[i].labels, CPU_BUCKETS[7].fragment)
  {
    if i == 0 {
      assert CPU_BUCKETS[0].labels == "_idle" && CPU_BUCKETS[7].fragment == "steal";
      NotContainedBecause("_idle", "steal", 's');
    } else if i == 1 {
      assert CPU_BUCKETS[1].labels == "_irq" && CPU_BUCKETS[7].fragment == "steal";
      NotContainedBecause("_irq", "steal", 's');
    } else if i == 2 {
      assert CPU_BUCKETS[2].labels == "_softirq" && CPU_BUCKETS[7].fragment == "steal";
      NotContainedBecause("_softirq", "steal", 'e');
    } else if i == 3 {
      assert CPU_BUCKETS[3].labels == "_system" && CPU_BUCKETS[7].fragment == "steal";
      NotContainedBecause("_system", "steal", 'a');
    } else if i == 4 {
      assert CPU_BUCKETS[4].labels == "_user" && CPU_BUCKETS[7].fragment == "steal";
      NotContainedBecause("_user", "steal", 't');
    } else if i == 5 {
      assert CPU_BUCKETS[5].labels == "_iowait" && CPU_BUCKETS[7].fragment == "steal";
      NotContainedBecause("_iowait", "steal", 's');
    } else if i == 6 {
      assert CPU_BUCKETS[6].labels == "_nice" && CPU_BUCKETS[7].fragment == "steal";
      NotContainedBecause("_nice", "steal", 's');
    }
  }
}
