/**
 * `check_site_slas` of sla_monitor_cli.py: for one site, compares the VOs
 * its SLAs cover with the VOs the accounting portal reports usage for
 * and the VOs AppDB says the site configures, and prints which are
 * fine, which are missing and which are not covered by an SLA.
 *
 * The printed lines become message tags. The accounting and AppDB
 * answers for the site are given as sets, and `goc.sla_vos` (every VO of
 * any SLA) as a set.
 */
module SlaMonitor {
  const Ops: string := "ops"

  datatype Message =
    | CheckingSite(site: string)                 // [-] Checking site
    | NotInAnySla                                // [I] not present in any SLA
    | SlaInfo(sla: string)                       // Information for SLA
    | Accounted(sla: string, vos: set<string>)   // [OK] has accounting info for SLA
    | NotAccounted(sla: string)                  // [ERR] has no accounting info for SLA
    | Configured(sla: string, vos: set<string>)  // [OK] has configured the VOs of the SLA
    | NotConfigured(sla: string)                 // [ERR] has no configured VO for SLA
    | Blank
    | CheckingAdditional(site: string)           // [-] Checking additional VOs
    | AccountedWithoutSla(vos: set<string>)      // [W] accounting for VOs not covered by SLA
    | NoOpsAccounting                            // [W] no accounting for ops
    | ConfiguredWithoutSla(vos: set<string>)     // [W] VOs configured but not covered by SLA
    | NoOpsConfiguration                         // [W] no configuration for ops

  /** The SLAs of a site, in the order the table lists them: name and VO set. */
  type SiteSlas = seq<(string, set<string>)>

  /** The lines printed for one SLA. */
  function SlaBlock(sla: (string, set<string>), accounted: set<string>, appdb: set<string>): seq<Message>
  {
    var (name, vos) := sla;
    [SlaInfo(name)]
    + (if vos * accounted != {} then [Accounted(name, vos * accounted)] else [NotAccounted(name)])
    + (if vos * appdb != {} then [Configured(name, vos * appdb)] else [NotConfigured(name)])
    + [Blank]
  }

  /** The lines printed by the loop over the SLAs of the site. */
  function SlaMessages(slas: SiteSlas, accounted: set<string>, appdb: set<string>): seq<Message>
    decreases |slas|
  {
    if slas == [] then [] else SlaBlock(slas[0], accounted, appdb) + SlaMessages(slas[1..], accounted, appdb)
  }

  /** The union of the VO sets of the SLAs. */
  function SlaVos(slas: SiteSlas): set<string>
    decreases |slas|
  {
    if slas == [] then {} else slas[0].1 + SlaVos(slas[1..])
  }

  /** The VOs counted as covered: those of the site's SLAs, or every SLA VO when that is empty. */
  function Covered(slaVos: set<string>, gocSlaVos: set<string>): set<string>
  {
    if slaVos == {} then gocSlaVos else slaVos
  }

  /** Lines 39-53 of sla_monitor_cli.py as written: the AppDB warning tests the accounting set. */
  function AdditionalAsWritten(covered: set<string>, accounted: set<string>, appdb: set<string>): seq<Message>
  {
    var nonSlaVos := accounted - (covered + {Ops});
    var nonSlaAppdbVos := appdb - (covered + {Ops});
    (if nonSlaVos != {} then [AccountedWithoutSla(nonSlaVos)] else [])
    + (if Ops !in accounted then [NoOpsAccounting] else [])
    + (if nonSlaVos != {} then [ConfiguredWithoutSla(nonSlaAppdbVos)] else [])
    + (if Ops !in appdb then [NoOpsConfiguration] else [])
    + [Blank]
  }

  /** Lines 39-53 with the AppDB warning testing the AppDB set, as its text intends. */
  function Additional(covered: set<string>, accounted: set<string>, appdb: set<string>): seq<Message>
  {
    var nonSlaVos := accounted - (covered + {Ops});
    var nonSlaAppdbVos := appdb - (covered + {Ops});
    (if nonSlaVos != {} then [AccountedWithoutSla(nonSlaVos)] else [])
    + (if Ops !in accounted then [NoOpsAccounting] else [])
    + (if nonSlaAppdbVos != {} then [ConfiguredWithoutSla(nonSlaAppdbVos)] else [])
    + (if Ops !in appdb then [NoOpsConfiguration] else [])
    + [Blank]
  }

  /** The VOs the site's SLAs cover; none when the site is in no SLA. */
  function SiteSlaVos(site: string, siteSlas: map<string, SiteSlas>): set<string>
  {
    if site in siteSlas then SlaVos(siteSlas[site]) else {}
  }

  /** The lines before the check of additional VOs. */
  function SlaPart(site: string, siteSlas: map<string, SiteSlas>, accounted: set<string>, appdb: set<string>)
    : seq<Message>
  {
    [CheckingSite(site)]
    + (if site !in siteSlas then [NotInAnySla] else SlaMessages(siteSlas[site], accounted, appdb))
    + [CheckingAdditional(site)]
  }

  /** `check_site_slas` as written. */
  function CheckSiteSlasOf(site: string, siteSlas: map<string, SiteSlas>, gocSlaVos: set<string>,
                           accounted: set<string>, appdb: set<string>): seq<Message>
  {
    SlaPart(site, siteSlas, accounted, appdb)
    + AdditionalAsWritten(Covered(SiteSlaVos(site, siteSlas), gocSlaVos), accounted, appdb)
  }

  /** `check_site_slas` with the warning about configured VOs guarded by the AppDB set. */
  function CheckSiteSlasCorrectedOf(site: string, siteSlas: map<string, SiteSlas>, gocSlaVos: set<string>,
                                    accounted: set<string>, appdb: set<string>): seq<Message>
  {
    SlaPart(site, siteSlas, accounted, appdb)
    + Additional(Covered(SiteSlaVos(site, siteSlas), gocSlaVos), accounted, appdb)
  }

  // ---------------------------------------------------------------------
  // Properties

  /** Messages that belong to one SLA. */
  predicate PerSla(m: Message)
  {
    m.SlaInfo? || m.Accounted? || m.NotAccounted? || m.Configured? || m.NotConfigured?
  }

  /** The VOs covered by a site's SLAs are exactly those some SLA lists. */
  lemma {:induction false} SlaVosIsUnion(slas: SiteSlas)
    ensures forall vo :: vo in SlaVos(slas) <==> exists i :: 0 <= i < |slas| && vo in slas[i].1
    decreases |slas|
  {
    if slas != [] {
      SlaVosIsUnion(slas[1..]);
      assert forall i :: 0 < i < |slas| ==> slas[i] == slas[1..][i - 1];
      forall vo | exists i :: 0 <= i < |slas| && vo in slas[i].1 ensures vo in SlaVos(slas) {
        var i :| 0 <= i < |slas| && vo in slas[i].1;
        if i > 0 {
          assert vo in slas[1..][i - 1].1;
        }
      }
    }
  }

  /** Each SLA gets four lines. */
  lemma {:induction false} SlaMessagesLength(slas: SiteSlas, accounted: set<string>, appdb: set<string>)
    ensures |SlaMessages(slas, accounted, appdb)| == 4 * |slas|
    decreases |slas|
  {
    if slas != [] {
      SlaMessagesLength(slas[1..], accounted, appdb);
    }
  }

  /** The four lines from position `4 * i` are those of the `i`-th SLA. */
  lemma {:induction false} SlaMessagesAt(slas: SiteSlas, accounted: set<string>, appdb: set<string>, i: nat)
    requires i < |slas|
    ensures |SlaMessages(slas, accounted, appdb)| == 4 * |slas|
    ensures SlaMessages(slas, accounted, appdb)[4 * i..4 * i + 4] == SlaBlock(slas[i], accounted, appdb)
    decreases i
  {
    SlaMessagesLength(slas, accounted, appdb);
    var block := SlaBlock(slas[0], accounted, appdb);
    var rest := SlaMessages(slas[1..], accounted, appdb);
    assert SlaMessages(slas, accounted, appdb) == block + rest;
    if i > 0 {
      SlaMessagesAt(slas[1..], accounted, appdb, i - 1);
      assert |block| == 4;
      assert slas[1..][i - 1] == slas[i];
      assert (block + rest)[4 * i..4 * i + 4] == rest[4 * (i - 1)..4 * (i - 1) + 4];
    }
  }

  /**
   * The loop prints four lines per SLA, in order: its name; `[OK]` with
   * the accounted VOs exactly when its VOs meet the accounting set, else
   * `[ERR]`; `[OK]` with the configured VOs exactly when they meet the
   * AppDB set, else `[ERR]`; a blank line.
   */
  lemma SlaMessagesSpec(slas: SiteSlas, accounted: set<string>, appdb: set<string>, i: nat)
    requires i < |slas|
    ensures var out := SlaMessages(slas, accounted, appdb);
      var (name, vos) := slas[i];
      && |out| == 4 * |slas|
      && out[4 * i] == SlaInfo(name)
      && (vos * accounted != {} <==> out[4 * i + 1] == Accounted(name, vos * accounted))
      && (vos * accounted == {} <==> out[4 * i + 1] == NotAccounted(name))
      && (vos * appdb != {} <==> out[4 * i + 2] == Configured(name, vos * appdb))
      && (vos * appdb == {} <==> out[4 * i + 2] == NotConfigured(name))
      && out[4 * i + 3] == Blank
  {
    SlaMessagesAt(slas, accounted, appdb, i);
    var out := SlaMessages(slas, accounted, appdb);
    var block := SlaBlock(slas[i], accounted, appdb);
    assert out[4 * i] == block[0] && out[4 * i + 1] == block[1];
    assert out[4 * i + 2] == block[2] && out[4 * i + 3] == block[3];
  }

  /** The lines for the first SLAs, then those for one more. */
  lemma {:induction false} SlaMessagesSnoc(slas: SiteSlas, sla: (string, set<string>), accounted: set<string>,
                                           appdb: set<string>)
    ensures SlaMessages(slas + [sla], accounted, appdb) == SlaMessages(slas, accounted, appdb) + SlaBlock(sla, accounted, appdb)
    ensures SlaVos(slas + [sla]) == SlaVos(slas) + sla.1
    decreases |slas|
  {
    if slas == [] {
      assert slas + [sla] == [sla];
    } else {
      assert (slas + [sla])[1..] == slas[1..] + [sla];
      SlaMessagesSnoc(slas[1..], sla, accounted, appdb);
    }
  }

  /** A site in no SLA gets the "not present" line and no line about any SLA. */
  lemma NotInAnySlaSpec(site: string, siteSlas: map<string, SiteSlas>, gocSlaVos: set<string>,
                        accounted: set<string>, appdb: set<string>)
    requires site !in siteSlas
    ensures var out := CheckSiteSlasOf(site, siteSlas, gocSlaVos, accounted, appdb);
      && out[..3] == [CheckingSite(site), NotInAnySla, CheckingAdditional(site)]
      && forall m :: m in out ==> !PerSla(m)
  {
    var out := CheckSiteSlasOf(site, siteSlas, gocSlaVos, accounted, appdb);
    var tail := AdditionalAsWritten(Covered({}, gocSlaVos), accounted, appdb);
    AdditionalNotPerSla(Covered({}, gocSlaVos), accounted, appdb);
    assert out == [CheckingSite(site), NotInAnySla, CheckingAdditional(site)] + tail;
  }

  /** The additional checks print no line about a single SLA. */
  lemma AdditionalNotPerSla(covered: set<string>, accounted: set<string>, appdb: set<string>)
    ensures forall m :: m in AdditionalAsWritten(covered, accounted, appdb) ==> !PerSla(m)
  {
  }

  /**
   * The additional checks use the site's SLA VOs, or every SLA VO when the
   * site's SLAs cover none; a VO with accounting outside them and "ops" is
   * reported exactly when there is one; a missing "ops" is reported
   * separately for the accounting and the AppDB sets.
   */
  lemma AdditionalSpec(covered: set<string>, accounted: set<string>, appdb: set<string>)
    ensures var out := AdditionalAsWritten(covered, accounted, appdb);
      var nonSlaVos := accounted - (covered + {Ops});
      && (AccountedWithoutSla(nonSlaVos) in out <==> nonSlaVos != {})
      && (NoOpsAccounting in out <==> Ops !in accounted)
      && (NoOpsConfiguration in out <==> Ops !in appdb)
      && (forall vos :: AccountedWithoutSla(vos) in out ==> vos == nonSlaVos && vos != {})
      && (forall vo :: vo in nonSlaVos ==> vo !in covered && vo != Ops && vo in accounted)
      && out[|out| - 1] == Blank
  {
  }

  /** The fallback: the covered VOs are the site's own unless they are none. */
  lemma CoveredSpec(site: string, siteSlas: map<string, SiteSlas>, gocSlaVos: set<string>)
    ensures var own := SiteSlaVos(site, siteSlas);
      Covered(own, gocSlaVos) == (if own == {} then gocSlaVos else own)
    ensures site in siteSlas ==>
      forall vo :: vo in SiteSlaVos(site, siteSlas) <==> exists i :: 0 <= i < |siteSlas[site]| && vo in siteSlas[site][i].1
  {
    if site in siteSlas {
      SlaVosIsUnion(siteSlas[site]);
    }
  }

  /**
   * As written, the warning about configured VOs outside the SLAs is
   * printed exactly when the ACCOUNTING set has such VOs, whatever AppDB
   * says; it always names the AppDB VOs outside the SLAs, even when there
   * are none.
   */
  lemma AppdbWarningAsWritten(covered: set<string>, accounted: set<string>, appdb: set<string>)
    ensures var out := AdditionalAsWritten(covered, accounted, appdb);
      && ((exists vos :: ConfiguredWithoutSla(vos) in out) <==> accounted - (covered + {Ops}) != {})
      && (forall vos :: ConfiguredWithoutSla(vos) in out ==> vos == appdb - (covered + {Ops}))
  {
    var nonSlaVos := accounted - (covered + {Ops});
    var front := (if nonSlaVos != {} then [AccountedWithoutSla(nonSlaVos)] else [])
      + (if Ops !in accounted then [NoOpsAccounting] else []);
    var warning := if nonSlaVos != {} then [ConfiguredWithoutSla(appdb - (covered + {Ops}))] else [];
    var back := (if Ops !in appdb then [NoOpsConfiguration] else []) + [Blank];
    var out := AdditionalAsWritten(covered, accounted, appdb);
    assert out == front + warning + back;
    assert forall m: Message :: m in front + back ==> !m.ConfiguredWithoutSla?;
  }

  /**
   * Two inputs where the as-written guard goes wrong: a VO configured in
   * AppDB outside the SLAs goes unreported when all accounted VOs are
   * covered, and an empty set is reported when only the accounting set
   * has an uncovered VO.
   */
  lemma AppdbWarningCounterexample()
    ensures ConfiguredWithoutSla({"x"}) !in AdditionalAsWritten({"y"}, {"y", Ops}, {"x", "y", Ops})
    ensures ConfiguredWithoutSla({"x"}) in Additional({"y"}, {"y", Ops}, {"x", "y", Ops})
    ensures ConfiguredWithoutSla({}) in AdditionalAsWritten({"y"}, {"x", "y", Ops}, {"y", Ops})
  {
    var covered: set<string> := {"y"};
    assert {"y", Ops} - (covered + {Ops}) == {};
    assert {"x", "y", Ops} - (covered + {Ops}) == {"x"};
    assert {"y", Ops} - (covered + {Ops}) == {};
  }

  /**
   * With the guard corrected, the warning about configured VOs outside the
   * SLAs is printed exactly when AppDB has such VOs, and names them.
   */
  lemma AppdbWarningCorrected(covered: set<string>, accounted: set<string>, appdb: set<string>)
    ensures var out := Additional(covered, accounted, appdb);
      var nonSlaAppdbVos := appdb - (covered + {Ops});
      && ((exists vos :: ConfiguredWithoutSla(vos) in out) <==> nonSlaAppdbVos != {})
      && (forall vos :: ConfiguredWithoutSla(vos) in out ==> vos == nonSlaAppdbVos)
      && (forall vo :: vo in appdb && vo !in covered && vo != Ops ==> ConfiguredWithoutSla(nonSlaAppdbVos) in out)
  {
    var nonSlaVos := accounted - (covered + {Ops});
    var nonSlaAppdbVos := appdb - (covered + {Ops});
    var front := (if nonSlaVos != {} then [AccountedWithoutSla(nonSlaVos)] else [])
      + (if Ops !in accounted then [NoOpsAccounting] else []);
    var warning := if nonSlaAppdbVos != {} then [ConfiguredWithoutSla(nonSlaAppdbVos)] else [];
    var back := (if Ops !in appdb then [NoOpsConfiguration] else []) + [Blank];
    var out := Additional(covered, accounted, appdb);
    assert out == front + warning + back;
    assert forall m: Message :: m in front + back ==> !m.ConfiguredWithoutSla?;
    forall vo | vo in appdb && vo !in covered && vo != Ops ensures ConfiguredWithoutSla(nonSlaAppdbVos) in out {
      assert vo in nonSlaAppdbVos;
    }
  }

  /** The as-written and the corrected checks differ only in the AppDB warning. */
  lemma CorrectedAgreesElsewhere(covered: set<string>, accounted: set<string>, appdb: set<string>)
    requires (accounted - (covered + {Ops}) != {}) == (appdb - (covered + {Ops}) != {})
    ensures AdditionalAsWritten(covered, accounted, appdb) == Additional(covered, accounted, appdb)
  {
  }

  /** The lines about the SLAs never carry the warning about configured VOs. */
  lemma {:induction false} SlaMessagesNoConfiguredWarning(slas: SiteSlas, accounted: set<string>, appdb: set<string>)
    ensures forall m :: m in SlaMessages(slas, accounted, appdb) ==> !m.ConfiguredWithoutSla?
    decreases |slas|
  {
    if slas != [] {
      SlaMessagesNoConfiguredWarning(slas[1..], accounted, appdb);
    }
  }

  /**
   * The corrected check prints the warning about configured VOs exactly
   * when AppDB lists a VO outside the covered ones and "ops", naming
   * those VOs, and prints the same lines as the check as written whenever
   * the accounting and the AppDB sets agree on having such a VO.
   */
  lemma CheckSiteSlasCorrectedSpec(site: string, siteSlas: map<string, SiteSlas>, gocSlaVos: set<string>,
                                   accounted: set<string>, appdb: set<string>)
    ensures var covered := Covered(SiteSlaVos(site, siteSlas), gocSlaVos);
      var nonSlaAppdbVos := appdb - (covered + {Ops});
      var out := CheckSiteSlasCorrectedOf(site, siteSlas, gocSlaVos, accounted, appdb);
      && ((exists vos :: ConfiguredWithoutSla(vos) in out) <==> nonSlaAppdbVos != {})
      && (forall vos :: ConfiguredWithoutSla(vos) in out ==> vos == nonSlaAppdbVos)
      && ((accounted - (covered + {Ops}) != {}) == (nonSlaAppdbVos != {}) ==>
            out == CheckSiteSlasOf(site, siteSlas, gocSlaVos, accounted, appdb))
  {
    var covered := Covered(SiteSlaVos(site, siteSlas), gocSlaVos);
    var head := SlaPart(site, siteSlas, accounted, appdb);
    var tail := Additional(covered, accounted, appdb);
    if site in siteSlas {
      SlaMessagesNoConfiguredWarning(siteSlas[site], accounted, appdb);
    }
    assert forall m :: m in head ==> !m.ConfiguredWithoutSla?;
    AppdbWarningCorrected(covered, accounted, appdb);
    assert CheckSiteSlasCorrectedOf(site, siteSlas, gocSlaVos, accounted, appdb) == head + tail;
    if (accounted - (covered + {Ops}) != {}) == (appdb - (covered + {Ops}) != {}) {
      CorrectedAgreesElsewhere(covered, accounted, appdb);
    }
  }

  /** `check_site_slas`, printing line by line. */
  method CheckSiteSlas(site: string, siteSlas: map<string, SiteSlas>, gocSlaVos: set<string>,
                       accounted: set<string>, appdb: set<string>) returns (out: seq<Message>)
    ensures out == CheckSiteSlasOf(site, siteSlas, gocSlaVos, accounted, appdb)
  {
    out := [CheckingSite(site)];
    var slaVos: set<string> := {};
    if site !in siteSlas {
      out := out + [NotInAnySla];
    } else {
      var lines;
      lines, slaVos := ReportSlas(siteSlas[site], accounted, appdb);
      out := out + lines;
    }
    out := out + [CheckingAdditional(site)];
    if slaVos == {} {
      slaVos := gocSlaVos;
    }
    var lines := ReportAdditional(slaVos, accounted, appdb);
    out := out + lines;
  }

  /** Lines 19-34 of sla_monitor_cli.py: the loop over the SLAs of the site. */
  method ReportSlas(slas: SiteSlas, accounted: set<string>, appdb: set<string>)
    returns (out: seq<Message>, slaVos: set<string>)
    ensures out == SlaMessages(slas, accounted, appdb)
    ensures slaVos == SlaVos(slas)
  {
    out := [];
    slaVos := {};
    for i := 0 to |slas|
      invariant out == SlaMessages(slas[..i], accounted, appdb)
      invariant slaVos == SlaVos(slas[..i])
    {
      SlaMessagesSnoc(slas[..i], slas[i], accounted, appdb);
      assert slas[..i + 1] == slas[..i] + [slas[i]];
      var block := ReportSla(slas[i], accounted, appdb);
      out := out + block;
      slaVos := slaVos + slas[i].1;
    }
    assert slas[..|slas|] == slas;
  }

  /** The lines printed for one SLA of the site. */
  method ReportSla(sla: (string, set<string>), accounted: set<string>, appdb: set<string>)
    returns (block: seq<Message>)
    ensures block == SlaBlock(sla, accounted, appdb)
  {
    var (name, vos) := sla;
    block := [SlaInfo(name)];
    var accountedVos := vos * accounted;
    if accountedVos != {} {
      block := block + [Accounted(name, accountedVos)];
    } else {
      block := block + [NotAccounted(name)];
    }
    var infoVos := vos * appdb;
    if infoVos != {} {
      block := block + [Configured(name, infoVos)];
    } else {
      block := block + [NotConfigured(name)];
    }
    block := block + [Blank];
  }

  /** Lines 37-53 of sla_monitor_cli.py, given the covered VOs. */
  method ReportAdditional(covered: set<string>, accounted: set<string>, appdb: set<string>) returns (out: seq<Message>)
    ensures out == AdditionalAsWritten(covered, accounted, appdb)
  {
    out := [];
    var nonSlaVos := accounted - (covered + {Ops});
    if nonSlaVos != {} {
      out := out + [AccountedWithoutSla(nonSlaVos)];
    }
    if Ops !in accounted {
      out := out + [NoOpsAccounting];
    }
    var nonSlaAppdbVos := appdb - (covered + {Ops});
    if nonSlaVos != {} {
      out := out + [ConfiguredWithoutSla(nonSlaAppdbVos)];
    }
    if Ops !in appdb {
      out := out + [NoOpsConfiguration];
    }
    out := out + [Blank];
  }
}
