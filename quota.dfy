/**
 * The Civo quota health check: each checked limit is banded by the share of
 * it already used, and the alerting fields are listed, sorted, in a report.
 */
module Quota {
  import opened Wrappers
  import opened GoStrings
  import opened GoMaps
  import Sorting

  const QuotaObjectThresholdWarning := 80
  const QuotaObjectThresholdCritical := 90
  const CivoQuotaIncreaseLink := "https://dashboard.civo.com/quota/edit"

  /**
   * checkFields: each limit field of the quota and the usage field compared
   * with it. The evaluation takes the table as a parameter.
   */
  const CheckFields: map<string, string> := map[
    "cpu_core_limit" := "cpu_core_usage",
    "database_count_limit" := "database_count_usage",
    "database_cpu_core_limit" := "database_cpu_core_usage",
    "database_ram_mb_limit" := "database_ram_mb_usage",
    "database_disk_gb_limit" := "database_disk_gb_usage",
    "disk_gb_limit" := "disk_gb_usage",
    "disk_volume_count_limit" := "disk_volume_count_usage",
    "instance_count_limit" := "instance_count_usage",
    "loadbalancer_count_limit" := "loadbalancer_count_usage",
    "network_count_limit" := "network_count_usage",
    "objectstore_gb_limit" := "objectstore_gb_usage",
    "port_count_limit" := "port_count_usage",
    "public_ip_address_limit" := "public_ip_address_usage",
    "ram_mb_limit" := "ram_mb_usage",
    "security_group_limit" := "security_group_usage",
    "security_group_rule_limit" := "security_group_rule_usage",
    "subnet_count_limit" := "subnet_count_usage"]

  /** Where a rounded percentage of use falls. */
  datatype Band = Warning | Failure | Healthy

  /** The switch on the percentage: above 80 and below 90 warns, above 90 fails. */
  function BandOf(percent: int): (b: Band)
    ensures b == Warning <==> QuotaObjectThresholdWarning < percent < QuotaObjectThresholdCritical
    ensures b == Failure <==> percent > QuotaObjectThresholdCritical
    ensures b == Healthy <==> percent <= QuotaObjectThresholdWarning || percent == QuotaObjectThresholdCritical
  {
    if QuotaObjectThresholdWarning < percent < QuotaObjectThresholdCritical then Warning
    else if percent > QuotaObjectThresholdCritical then Failure
    else Healthy
  }

  /** A field is listed when it alerts, or always with --show-all. */
  predicate Listed(percent: int, showAll: bool) {
    BandOf(percent) != Healthy || showAll
  }

  /** The values a field's line shows. */
  datatype QuotaFormattedOutput = QuotaFormattedOutput(actualFieldTitle: string, actualFieldValue: int, limitValue: int)

  /** formatQuotaOutput: "<field> - <used> used of <limit> [<usage>]". */
  function FormatQuotaOutput(q: QuotaFormattedOutput, usageExpression: string): string {
    q.actualFieldTitle + " - " + Itoa(q.actualFieldValue) + " used of " + Itoa(q.limitValue) +
      " [" + usageExpression + "]"
  }

  /** A line starts with the usage field's name and ends with the bracketed percentage. */
  lemma FormatQuotaOutputParts(q: QuotaFormattedOutput, usageExpression: string)
    ensures var line := FormatQuotaOutput(q, usageExpression);
      var head := q.actualFieldTitle + " - ";
      var tail := "[" + usageExpression + "]";
      |line| >= |head| + |tail| && line[..|head|] == head && line[|line| - |tail|..] == tail
  {
    var head := q.actualFieldTitle + " - ";
    var middle := Itoa(q.actualFieldValue) + " used of " + Itoa(q.limitValue) + " ";
    var tail := "[" + usageExpression + "]";
    assert FormatQuotaOutput(q, usageExpression) == head + middle + tail;
  }

  /** The percentage text: the number followed by "%". */
  function PercentExpr(percent: int): string {
    Itoa(percent) + "%"
  }

  /**
   * What the quota map holds for the checked fields: every limit field and
   * its usage field has a value, and every limit field a rounded percentage.
   * A missing value would make Go's type assertion panic.
   */
  predicate Readable(checkFields: map<string, string>, values: map<string, int>, percent: map<string, int>) {
    forall k :: k in checkFields ==> k in values && checkFields[k] in values && k in percent
  }

  /** The line for a limit field. */
  function Line(checkFields: map<string, string>, values: map<string, int>, percent: map<string, int>, k: string): string
    requires Readable(checkFields, values, percent) && k in checkFields
  {
    var actualField := checkFields[k];
    FormatQuotaOutput(QuotaFormattedOutput(actualField, values[actualField], values[k]), PercentExpr(percent[k]))
  }

  /** The lines appended while visiting the limit fields in `order`. */
  function Lines(checkFields: map<string, string>, values: map<string, int>, percent: map<string, int>,
                 showAll: bool, order: seq<string>): seq<string>
    requires Readable(checkFields, values, percent)
    requires forall j :: 0 <= j < |order| ==> order[j] in checkFields
    decreases |order|
  {
    if |order| == 0 then []
    else
      var k := order[|order| - 1];
      Lines(checkFields, values, percent, showAll, order[..|order| - 1]) +
        (if Listed(percent[k], showAll) then [Line(checkFields, values, percent, k)] else [])
  }

  lemma LinesSnoc(checkFields: map<string, string>, values: map<string, int>, percent: map<string, int>,
                  showAll: bool, order: seq<string>, k: string)
    requires Readable(checkFields, values, percent) && k in checkFields
    requires forall j :: 0 <= j < |order| ==> order[j] in checkFields
    ensures forall j :: 0 <= j < |order + [k]| ==> (order + [k])[j] in checkFields
    ensures Lines(checkFields, values, percent, showAll, order + [k]) ==
      Lines(checkFields, values, percent, showAll, order) +
        (if Listed(percent[k], showAll) then [Line(checkFields, values, percent, k)] else [])
  {
    assert (order + [k])[..|order|] == order;
  }

  /** The limit fields among `keys` in a band. */
  function BandFields(keys: set<string>, percent: map<string, int>, band: Band): set<string> {
    set k | k in keys && k in percent && BandOf(percent[k]) == band
  }

  /** The limit fields among `keys` that are listed. */
  function ListedFields(keys: set<string>, percent: map<string, int>, showAll: bool): set<string> {
    set k | k in keys && k in percent && Listed(percent[k], showAll)
  }

  lemma AddToBand(done: set<string>, k: string, percent: map<string, int>, band: Band)
    requires k !in done && k in percent
    ensures |BandFields(done + {k}, percent, band)| ==
      |BandFields(done, percent, band)| + (if BandOf(percent[k]) == band then 1 else 0)
  {
    var before := BandFields(done, percent, band);
    var after := BandFields(done + {k}, percent, band);
    if BandOf(percent[k]) == band {
      assert after == before + {k};
    } else {
      assert after == before;
    }
  }

  lemma AddToListed(done: set<string>, k: string, percent: map<string, int>, showAll: bool)
    requires k !in done && k in percent
    ensures |ListedFields(done + {k}, percent, showAll)| ==
      |ListedFields(done, percent, showAll)| + (if Listed(percent[k], showAll) then 1 else 0)
  {
    var before := ListedFields(done, percent, showAll);
    var after := ListedFields(done + {k}, percent, showAll);
    if Listed(percent[k], showAll) {
      assert after == before + {k};
    } else {
      assert after == before;
    }
  }

  /** The report header. */
  function Header(cloudRegion: string): string {
    HeaderTitle + cloudRegion + HeaderNote
  }

  const HeaderTitle := "Civo Quota Health\nRegion: "
  const HeaderNote := "\n\nNote that if any of these are approaching their limits, you may want to increase them."

  /** The 70-dash rule drawn around the header. */
  function Rule(): string {
    Repeat("-", 70)
  }

  const AllHealthy := "All quotas are healthy. To show all quotas regardless, run `kubefirst civo quota --show-all`\n"
  const Closing := "\nIf you encounter any errors while working with Civo, request a limit increase for your account before retrying.\n\n"

  /** Each output line followed by a newline. */
  function Body(output: seq<string>): string
    decreases |output|
  {
    if |output| == 0 then "" else Body(output[..|output| - 1]) + output[|output| - 1] + "\n"
  }

  /** The header between two rules. */
  function Frame(messageHeader: string): string {
    Rule() + "\n" + messageHeader + "\n" + Rule() + "\n"
  }

  /** The text printCivoQuotaWarning writes to its buffer. */
  function QuotaWarningText(messageHeader: string, output: seq<string>): string {
    Frame(messageHeader) + Body(output) + Trailer(|output| == 0)
  }

  /** printCivoQuotaWarning. */
  method PrintCivoQuotaWarning(messageHeader: string, output: seq<string>) returns (text: string)
    ensures text == QuotaWarningText(messageHeader, output)
  {
    var head := Frame(messageHeader);
    var body := "";
    for i := 0 to |output|
      invariant body == Body(output[..i])
    {
      assert output[..i + 1][..i] == output[..i];
      body := body + output[i] + "\n";
    }
    assert output[..|output|] == output;
    text := head + body + Trailer(|output| == 0);
  }

  /** Every line of the body is there, followed by a newline. */
  lemma {:induction false} BodyContainsLines(output: seq<string>)
    ensures forall i :: 0 <= i < |output| ==> Contains(Body(output), output[i] + "\n")
    decreases |output|
  {
    if |output| > 0 {
      var n := |output| - 1;
      var front := Body(output[..n]);
      var last := output[n] + "\n";
      BodyContainsLines(output[..n]);
      assert Body(output) == front + last;
      forall i | 0 <= i < |output| ensures Contains(Body(output), output[i] + "\n") {
        if i < n {
          assert output[..n][i] == output[i];
          ContainsWithin(front, output[i] + "\n", "", last);
          assert "" + front + last == Body(output);
        } else {
          assert Body(output)[|front|..|front| + |last|] == last;
          ContainsAt(Body(output), last, |front|);
        }
      }
    }
  }

  /** What follows the lines: the all-healthy note when there is none, the advice and the link. */
  function Trailer(noOutput: bool): string {
    (if noOutput then AllHealthy else "") + Closing + CivoQuotaIncreaseLink
  }

  lemma TrailerParts(noOutput: bool)
    ensures HasSuffix(Trailer(noOutput), CivoQuotaIncreaseLink)
    ensures noOutput ==> HasPrefix(Trailer(noOutput), AllHealthy)
  {
    var t := Trailer(noOutput);
    var front := (if noOutput then AllHealthy else "") + Closing;
    assert t == front + CivoQuotaIncreaseLink;
    SuffixKept(front, CivoQuotaIncreaseLink, CivoQuotaIncreaseLink);
    if noOutput {
      assert t == AllHealthy + (Closing + CivoQuotaIncreaseLink);
    }
  }

  /** The report always ends with the quota-increase link. */
  lemma ReportEndsWithLink(messageHeader: string, output: seq<string>)
    ensures HasSuffix(QuotaWarningText(messageHeader, output), CivoQuotaIncreaseLink)
  {
    var front := Frame(messageHeader) + Body(output);
    var trailer := Trailer(|output| == 0);
    TrailerParts(|output| == 0);
    SuffixKept(front, trailer, CivoQuotaIncreaseLink);
  }

  /** With no line to list, the report says all quotas are healthy. */
  lemma ReportSaysHealthy(messageHeader: string, output: seq<string>)
    requires |output| == 0
    ensures Contains(QuotaWarningText(messageHeader, output), AllHealthy)
  {
    var front := Frame(messageHeader) + Body(output);
    TrailerParts(true);
    assert QuotaWarningText(messageHeader, output) == front + Trailer(true);
    PrefixAfter(front, Trailer(true), AllHealthy);
  }

  /** The report lists every output line, each followed by a newline. */
  lemma ReportListsLines(messageHeader: string, output: seq<string>)
    ensures forall i :: 0 <= i < |output| ==> Contains(QuotaWarningText(messageHeader, output), output[i] + "\n")
  {
    var head := Frame(messageHeader);
    var body := Body(output);
    var trailer := Trailer(|output| == 0);
    assert QuotaWarningText(messageHeader, output) == head + body + trailer;
    BodyContainsLines(output);
    forall i | 0 <= i < |output| ensures Contains(head + body + trailer, output[i] + "\n") {
      ContainsWithin(body, output[i] + "\n", head, trailer);
    }
  }

  /**
   * What EvaluateFields has computed once it has visited the keys `done`
   * in the order `order`.
   */
  ghost predicate Visited(checkFields: map<string, string>, values: map<string, int>, percent: map<string, int>,
                          showAll: bool, order: seq<string>, done: set<string>,
                          output: seq<string>, failures: nat, warnings: nat)
    requires Readable(checkFields, values, percent)
  {
    (forall j :: 0 <= j < |order| ==> order[j] in checkFields) &&
    (forall k :: multiset(order)[k] == (if k in done then 1 else 0)) &&
    output == Lines(checkFields, values, percent, showAll, order) &&
    failures == |BandFields(done, percent, Failure)| &&
    warnings == |BandFields(done, percent, Warning)|
  }

  /** Visiting one more key keeps Visited. */
  lemma VisitOne(checkFields: map<string, string>, values: map<string, int>, percent: map<string, int>,
                 showAll: bool, order: seq<string>, done: set<string>,
                 output: seq<string>, failures: nat, warnings: nat, k: string,
                 output': seq<string>, failures': nat, warnings': nat)
    requires Readable(checkFields, values, percent)
    requires Visited(checkFields, values, percent, showAll, order, done, output, failures, warnings)
    requires k in checkFields && k !in done
    requires output' == output + (if Listed(percent[k], showAll) then [Line(checkFields, values, percent, k)] else [])
    requires failures' == failures + (if BandOf(percent[k]) == Failure then 1 else 0)
    requires warnings' == warnings + (if BandOf(percent[k]) == Warning then 1 else 0)
    ensures Visited(checkFields, values, percent, showAll, order + [k], done + {k}, output', failures', warnings')
  {
    AddToBand(done, k, percent, Failure);
    AddToBand(done, k, percent, Warning);
    LinesSnoc(checkFields, values, percent, showAll, order, k);
    assert multiset(order + [k]) == multiset(order) + multiset{k};
  }

  /** One pass of the loop: the switch on the field's percentage. */
  method CheckField(showAll: bool, checkFields: map<string, string>, quotaMap: map<string, int>, percent: map<string, int>,
                    limitField: string, output: seq<string>, quotaFailures: nat, quotaWarnings: nat)
    returns (output': seq<string>, quotaFailures': nat, quotaWarnings': nat)
    requires Readable(checkFields, quotaMap, percent) && limitField in checkFields
    ensures output' == output +
      (if Listed(percent[limitField], showAll) then [Line(checkFields, quotaMap, percent, limitField)] else [])
    ensures quotaFailures' == quotaFailures + (if BandOf(percent[limitField]) == Failure then 1 else 0)
    ensures quotaWarnings' == quotaWarnings + (if BandOf(percent[limitField]) == Warning then 1 else 0)
  {
    output', quotaFailures', quotaWarnings' := output, quotaFailures, quotaWarnings;
    var actualField := checkFields[limitField];
    var percentCalc := percent[limitField];
    var checkObj := QuotaFormattedOutput(actualField, quotaMap[actualField], quotaMap[limitField]);
    if QuotaObjectThresholdWarning < percentCalc < QuotaObjectThresholdCritical {
      quotaWarnings' := quotaWarnings + 1;
      output' := output + [FormatQuotaOutput(checkObj, PercentExpr(percentCalc))];
    } else if percentCalc > QuotaObjectThresholdCritical {
      quotaFailures' := quotaFailures + 1;
      output' := output + [FormatQuotaOutput(checkObj, PercentExpr(percentCalc))];
    } else if showAll {
      output' := output + [FormatQuotaOutput(checkObj, PercentExpr(percentCalc))];
    }
  }

  /** Moving one key from the keys left to the keys done keeps the two apart and covering all. */
  lemma MoveToDone(all: set<string>, todo: set<string>, done: set<string>, k: string)
    requires todo <= all && done == all - todo && k in todo
    ensures todo - {k} <= all && done + {k} == all - (todo - {k})
  {
  }

  /** Once every key is visited, each has been visited exactly once. */
  lemma VisitedAll(checkFields: map<string, string>, values: map<string, int>, percent: map<string, int>,
                   showAll: bool, order: seq<string>, output: seq<string>, failures: nat, warnings: nat)
    requires Readable(checkFields, values, percent)
    requires Visited(checkFields, values, percent, showAll, order, checkFields.Keys, output, failures, warnings)
    ensures VisitsEachKey(checkFields, order)
  {
  }

  /**
   * The loop of returnCivoQuotaEvaluation: every limit field is visited
   * once, in the map's order `order`; the counters count the failing and
   * the warning fields, and the listed fields' lines are appended.
   */
  method EvaluateFields(showAll: bool, checkFields: map<string, string>, quotaMap: map<string, int>, percent: map<string, int>)
    returns (output: seq<string>, quotaFailures: nat, quotaWarnings: nat, ghost order: seq<string>)
    requires Readable(checkFields, quotaMap, percent)
    ensures VisitsEachKey(checkFields, order) && forall j :: 0 <= j < |order| ==> order[j] in checkFields
    ensures output == Lines(checkFields, quotaMap, percent, showAll, order)
    ensures quotaFailures == |BandFields(checkFields.Keys, percent, Failure)|
    ensures quotaWarnings == |BandFields(checkFields.Keys, percent, Warning)|
  {
    order := [];
    output := [];
    quotaFailures, quotaWarnings := 0, 0;
    var todo := checkFields.Keys;
    ghost var done: set<string> := {};
    while todo != {}
      invariant todo <= checkFields.Keys && done == checkFields.Keys - todo
      invariant Visited(checkFields, quotaMap, percent, showAll, order, done, output, quotaFailures, quotaWarnings)
      decreases todo
    {
      var limitField :| limitField in todo;
      ghost var output0, failures0, warnings0 := output, quotaFailures, quotaWarnings;
      output, quotaFailures, quotaWarnings :=
        CheckField(showAll, checkFields, quotaMap, percent, limitField, output, quotaFailures, quotaWarnings);
      VisitOne(checkFields, quotaMap, percent, showAll, order, done, output0, failures0, warnings0, limitField,
        output, quotaFailures, quotaWarnings);
      order := order + [limitField];
      MoveToDone(checkFields.Keys, todo, done, limitField);
      todo := todo - {limitField};
      done := done + {limitField};
    }
    assert done == checkFields.Keys;
    VisitedAll(checkFields, quotaMap, percent, showAll, order, output, quotaFailures, quotaWarnings);
  }

  /**
   * returnCivoQuotaEvaluation from the fetched quota on: a failed fetch or
   * decode returns "", 0, 0 and the error; otherwise the counters of
   * EvaluateFields, and its lines sorted into the report. `percent` holds
   * each limit field's rounded percentage of use.
   */
  method ReturnCivoQuotaEvaluation(cloudRegion: string, showAll: bool, checkFields: map<string, string>,
                                   quota: Result<map<string, int>>, percent: map<string, int>)
    returns (result: string, quotaFailures: nat, quotaWarnings: nat, err: Option<string>, ghost order: seq<string>)
    requires quota.Ok? ==> Readable(checkFields, quota.value, percent)
    ensures quota.Err? ==> result == "" && quotaFailures == 0 && quotaWarnings == 0 && err == Some(quota.error)
    ensures quota.Ok? ==> err == None && VisitsEachKey(checkFields, order)
    ensures quota.Ok? ==> quotaFailures == |BandFields(checkFields.Keys, percent, Failure)|
    ensures quota.Ok? ==> quotaWarnings == |BandFields(checkFields.Keys, percent, Warning)|
    ensures quota.Ok? ==>
      (forall j :: 0 <= j < |order| ==> order[j] in checkFields) &&
      result == QuotaReport(cloudRegion, showAll, checkFields, quota.value, percent, order)
  {
    order := [];
    if quota.Err? {
      result, quotaFailures, quotaWarnings, err := "", 0, 0, Some(quota.error);
    } else {
      result, quotaFailures, quotaWarnings, order := EvaluateQuota(cloudRegion, showAll, checkFields, quota.value, percent);
      err := None;
    }
  }

  /** The report for the fields visited in `order`: their lines, sorted, under the region's header. */
  function QuotaReport(cloudRegion: string, showAll: bool, checkFields: map<string, string>,
                       values: map<string, int>, percent: map<string, int>, order: seq<string>): string
    requires Readable(checkFields, values, percent)
    requires forall j :: 0 <= j < |order| ==> order[j] in checkFields
  {
    QuotaWarningText(Header(cloudRegion), Sorting.Sort(Lines(checkFields, values, percent, showAll, order)))
  }

  /** The fetched quota's fields evaluated, and their lines sorted into the report. */
  method EvaluateQuota(cloudRegion: string, showAll: bool, checkFields: map<string, string>,
                       quotaMap: map<string, int>, percent: map<string, int>)
    returns (result: string, quotaFailures: nat, quotaWarnings: nat, ghost order: seq<string>)
    requires Readable(checkFields, quotaMap, percent)
    ensures VisitsEachKey(checkFields, order) && forall j :: 0 <= j < |order| ==> order[j] in checkFields
    ensures quotaFailures == |BandFields(checkFields.Keys, percent, Failure)|
    ensures quotaWarnings == |BandFields(checkFields.Keys, percent, Warning)|
    ensures result == QuotaReport(cloudRegion, showAll, checkFields, quotaMap, percent, order)
  {
    var output;
    output, quotaFailures, quotaWarnings, order := EvaluateFields(showAll, checkFields, quotaMap, percent);
    var messageHeader := Header(cloudRegion);
    var sorted := Sorting.Sort(output);
    result := PrintCivoQuotaWarning(messageHeader, sorted);
  }

  /** Each field lands in at most one band, so the counters never exceed the number of fields. */
  lemma BandCounts(checkFields: map<string, string>, percent: map<string, int>)
    ensures |BandFields(checkFields.Keys, percent, Warning)| + |BandFields(checkFields.Keys, percent, Failure)|
      <= |checkFields.Keys|
  {
    var w := BandFields(checkFields.Keys, percent, Warning);
    var f := BandFields(checkFields.Keys, percent, Failure);
    var rest := checkFields.Keys - (w + f);
    assert w * f == {};
    assert checkFields.Keys == (w + f) + rest && (w + f) * rest == {};
  }

  /**
   * Without --show-all the report lists one line per warning or failing
   * field; with it, one line per field.
   */
  lemma ListedCounts(checkFields: map<string, string>, values: map<string, int>, percent: map<string, int>,
                     showAll: bool, order: seq<string>)
    requires Readable(checkFields, values, percent) && VisitsEachKey(checkFields, order)
    ensures forall j :: 0 <= j < |order| ==> order[j] in checkFields
    ensures !showAll ==> (|Lines(checkFields, values, percent, showAll, order)| ==
      |BandFields(checkFields.Keys, percent, Warning)| + |BandFields(checkFields.Keys, percent, Failure)|)
    ensures showAll ==> |Lines(checkFields, values, percent, showAll, order)| == |checkFields.Keys|
  {
    VisitedAreKeys(checkFields, order);
    LinesCount(checkFields, values, percent, showAll, order, checkFields.Keys);
    var w := BandFields(checkFields.Keys, percent, Warning);
    var f := BandFields(checkFields.Keys, percent, Failure);
    assert w * f == {};
    if !showAll {
      assert ListedFields(checkFields.Keys, percent, showAll) == w + f;
    } else {
      assert ListedFields(checkFields.Keys, percent, showAll) == checkFields.Keys;
    }
  }

  lemma {:induction false} LinesAppend(checkFields: map<string, string>, values: map<string, int>, percent: map<string, int>,
                                       showAll: bool, a: seq<string>, b: seq<string>)
    requires Readable(checkFields, values, percent)
    requires forall j :: 0 <= j < |a| ==> a[j] in checkFields
    requires forall j :: 0 <= j < |b| ==> b[j] in checkFields
    ensures forall j :: 0 <= j < |a + b| ==> (a + b)[j] in checkFields
    ensures Lines(checkFields, values, percent, showAll, a + b) ==
      Lines(checkFields, values, percent, showAll, a) + Lines(checkFields, values, percent, showAll, b)
    decreases |b|
  {
    if |b| == 0 {
      assert a + b == a;
    } else {
      var n := |b| - 1;
      var front := b[..n];
      assert b == front + [b[n]];
      assert a + b == (a + front) + [b[n]];
      LinesAppend(checkFields, values, percent, showAll, a, front);
      LinesSnoc(checkFields, values, percent, showAll, a + front, b[n]);
      LinesSnoc(checkFields, values, percent, showAll, front, b[n]);
    }
  }

  lemma LinesRemove(checkFields: map<string, string>, values: map<string, int>, percent: map<string, int>,
                    showAll: bool, a: seq<string>, x: string, b: seq<string>)
    requires Readable(checkFields, values, percent)
    requires forall j :: 0 <= j < |a| ==> a[j] in checkFields
    requires forall j :: 0 <= j < |b| ==> b[j] in checkFields
    requires x in checkFields
    ensures forall j :: 0 <= j < |a + [x] + b| ==> (a + [x] + b)[j] in checkFields
    ensures forall j :: 0 <= j < |a + b| ==> (a + b)[j] in checkFields
    ensures multiset(Lines(checkFields, values, percent, showAll, a + [x] + b)) ==
      multiset(Lines(checkFields, values, percent, showAll, [x])) + multiset(Lines(checkFields, values, percent, showAll, a + b))
  {
    LinesAppend(checkFields, values, percent, showAll, a, [x]);
    LinesAppend(checkFields, values, percent, showAll, a + [x], b);
    LinesAppend(checkFields, values, percent, showAll, a, b);
  }

  /** Visiting each of the keys in `done` once lists one line per listed field. */
  lemma {:induction false} LinesCount(checkFields: map<string, string>, values: map<string, int>, percent: map<string, int>,
                                      showAll: bool, order: seq<string>, done: set<string>)
    requires Readable(checkFields, values, percent)
    requires forall j :: 0 <= j < |order| ==> order[j] in checkFields
    requires forall k :: multiset(order)[k] == (if k in done then 1 else 0)
    ensures |Lines(checkFields, values, percent, showAll, order)| == |ListedFields(done, percent, showAll)|
    decreases |order|
  {
    if |order| == 0 {
      assert forall k :: k in done ==> multiset(order)[k] == 1;
    } else {
      var n := |order| - 1;
      var last := order[n];
      var front := order[..n];
      assert order == front + [last];
      assert multiset(order) == multiset(front) + multiset{last};
      assert last in done;
      var rest := done - {last};
      forall k ensures multiset(front)[k] == (if k in rest then 1 else 0) {
      }
      LinesCount(checkFields, values, percent, showAll, front, rest);
      AddToListed(rest, last, percent, showAll);
      assert rest + {last} == done;
    }
  }

  /** The lines do not depend on the visiting order, up to their multiset. */
  lemma {:induction false} LinesPermutation(checkFields: map<string, string>, values: map<string, int>,
                                            percent: map<string, int>, showAll: bool, o1: seq<string>, o2: seq<string>)
    requires Readable(checkFields, values, percent)
    requires forall j :: 0 <= j < |o1| ==> o1[j] in checkFields
    requires multiset(o1) == multiset(o2)
    ensures forall j :: 0 <= j < |o2| ==> o2[j] in checkFields
    ensures multiset(Lines(checkFields, values, percent, showAll, o1)) ==
      multiset(Lines(checkFields, values, percent, showAll, o2))
    decreases |o1|
  {
    MembersFollowMultiset(checkFields, o1, o2);
    if |o1| == 0 {
      assert |multiset(o2)| == 0;
    } else {
      var x := o1[0];
      assert x in multiset(o2);
      var j :| 0 <= j < |o2| && o2[j] == x;
      RemoveMatched(o1, o2, j);
      LinesPermutation(checkFields, values, percent, showAll, o1[1..], o2[..j] + o2[j + 1..]);
      LinesRemoveAt(checkFields, values, percent, showAll, o2, j, o2[..j] + o2[j + 1..]);
      LinesFirst(checkFields, values, percent, showAll, o1);
    }
  }

  /** Taking the key at j out of a visit order takes its line out of the lines. */
  lemma LinesRemoveAt(checkFields: map<string, string>, values: map<string, int>, percent: map<string, int>,
                      showAll: bool, o: seq<string>, j: nat, rest: seq<string>)
    requires Readable(checkFields, values, percent)
    requires forall k :: 0 <= k < |o| ==> o[k] in checkFields
    requires j < |o| && rest == o[..j] + o[j + 1..]
    ensures forall k :: 0 <= k < |rest| ==> rest[k] in checkFields
    ensures multiset(Lines(checkFields, values, percent, showAll, o)) ==
      multiset(Lines(checkFields, values, percent, showAll, [o[j]])) + multiset(Lines(checkFields, values, percent, showAll, rest))
  {
    SplitAt(o, j);
    LinesRemove(checkFields, values, percent, showAll, o[..j], o[j], o[j + 1..]);
  }

  /** The first key's line, ahead of the lines of the others. */
  lemma LinesFirst(checkFields: map<string, string>, values: map<string, int>, percent: map<string, int>,
                   showAll: bool, o: seq<string>)
    requires Readable(checkFields, values, percent)
    requires forall k :: 0 <= k < |o| ==> o[k] in checkFields
    requires |o| > 0
    ensures forall k :: 0 <= k < |o[1..]| ==> o[1..][k] in checkFields
    ensures multiset(Lines(checkFields, values, percent, showAll, o)) ==
      multiset(Lines(checkFields, values, percent, showAll, [o[0]])) + multiset(Lines(checkFields, values, percent, showAll, o[1..]))
  {
    assert o == [o[0]] + o[1..];
    LinesAppend(checkFields, values, percent, showAll, [o[0]], o[1..]);
  }

  /**
   * Because the lines are sorted, the report is the same whatever order the
   * map's keys are visited in.
   */
  lemma ReportIgnoresVisitOrder(cloudRegion: string, showAll: bool, checkFields: map<string, string>,
                                values: map<string, int>, percent: map<string, int>, o1: seq<string>, o2: seq<string>)
    requires Readable(checkFields, values, percent)
    requires VisitsEachKey(checkFields, o1) && VisitsEachKey(checkFields, o2)
    ensures forall j :: 0 <= j < |o1| ==> o1[j] in checkFields
    ensures forall j :: 0 <= j < |o2| ==> o2[j] in checkFields
    ensures QuotaReport(cloudRegion, showAll, checkFields, values, percent, o1) ==
      QuotaReport(cloudRegion, showAll, checkFields, values, percent, o2)
  {
    VisitedAreKeys(checkFields, o1);
    VisitOrdersPermute(checkFields, o1, o2);
    LinesPermutation(checkFields, values, percent, showAll, o1, o2);
    Sorting.SortIgnoresOrder(Lines(checkFields, values, percent, showAll, o1), Lines(checkFields, values, percent, showAll, o2));
  }
}
