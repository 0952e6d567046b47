/** Aligning features and labels of any two strictly increasing runs of sessions: every outcome, and what comes out. */
module Alignment {
  import opened Wrappers
  import opened Sequences
  import opened Aggregates
  import opened Columns
  import opened Features
  import opened Datasets

  /** A feature row within the span of the labels that has none. */
  predicate Unlabelled(i: int, features: seq<FeatureRow>, labels: seq<LabelRow>)
    requires 0 <= i < |features| && labels != []
  {
    && labels[0].session <= features[i].session <= labels[|labels| - 1].session
    && forall j :: 0 <= j < |labels| ==> labels[j].session != features[i].session
  }

  /** A label within the span of the features that belongs to none. */
  predicate Unmatched(j: int, features: seq<FeatureRow>, labels: seq<LabelRow>)
    requires 0 <= j < |labels| && features != []
  {
    && features[0].session <= labels[j].session <= features[|features| - 1].session
    && forall i :: 0 <= i < |features| ==> features[i].session != labels[j].session
  }

  /** Exactly the rows whose session both sides have, in order and side by side. */
  ghost predicate SideBySide(s: Supervised, features: seq<FeatureRow>, labels: seq<LabelRow>) {
    && |s.features| == |s.labels|
    && (forall a, b :: 0 <= a < b < |s.features| ==> s.features[a].session < s.features[b].session)
    && (forall k :: 0 <= k < |s.features| ==> s.features[k].session == s.labels[k].session)
    && (forall f :: f in s.features <==> f in features && exists l :: l in labels && l.session == f.session)
    && (forall l :: l in s.labels <==> l in labels && exists f :: f in features && f.session == l.session)
  }

  ghost predicate SomeShared(features: seq<FeatureRow>, labels: seq<LabelRow>) {
    exists i, j :: 0 <= i < |features| && 0 <= j < |labels| && features[i].session == labels[j].session
  }

  lemma {:induction false} ChosenMembers<T>(rows: seq<T>, mask: seq<bool>, n: nat)
    requires |rows| == |mask| && n <= |rows|
    ensures forall x :: x in Chosen(rows, mask, n) <==> exists i :: 0 <= i < n && mask[i] && rows[i] == x
  {
    if n > 0 {
      ChosenMembers(rows, mask, n - 1);
    }
  }

  lemma {:induction false} ChosenIncreasing(rows: seq<int>, mask: seq<bool>, n: nat)
    requires |rows| == |mask| && n <= |rows| && Increasing(rows)
    ensures Increasing(Chosen(rows, mask, n))
  {
    if n > 0 {
      ChosenIncreasing(rows, mask, n - 1);
      ChosenMembers(rows, mask, n - 1);
      var front := Chosen(rows, mask, n - 1);
      forall k | 0 <= k < |front| ensures front[k] < rows[n - 1] {
        assert front[k] in front;
        var i :| 0 <= i < n - 1 && mask[i] && rows[i] == front[k];
      }
    }
  }

  lemma {:induction false} ChosenColumn<T>(rows: seq<T>, key: T -> int, mask: seq<bool>, n: nat)
    requires |rows| == |mask| && n <= |rows|
    ensures Column(Chosen(rows, mask, n), key) == Chosen(Column(rows, key), mask, n)
  {
    if n > 0 {
      ChosenColumn(rows, key, mask, n - 1);
    }
  }

  lemma LastsAgree(s: seq<int>, t: seq<int>)
    requires Increasing(s) && Increasing(t) && s != [] && t != [] && forall x :: x in s <==> x in t
    ensures s[|s| - 1] == t[|t| - 1]
  {
    assert s[|s| - 1] in s && t[|t| - 1] in t;
    Spans(s);
    Spans(t);
    hide Increasing;
  }

  /** Strictly increasing sequences with the same elements are equal. */
  lemma {:induction false} IncreasingIsUnique(s: seq<int>, t: seq<int>)
    requires Increasing(s) && Increasing(t) && forall x :: x in s <==> x in t
    ensures s == t
  {
    assert |s| > 0 ==> s[0] in s && s[0] in t;
    assert |t| > 0 ==> t[0] in t && t[0] in s;
    if s != [] && t != [] {
      var front, other := s[..|s| - 1], t[..|t| - 1];
      LastsAgree(s, t);
      forall x ensures x in front <==> x in other {
        FrontMembers(s, x);
        FrontMembers(t, x);
      }
      assert Increasing(front) && Increasing(other);
      hide Increasing;
      IncreasingIsUnique(front, other);
      assert s == front + [s[|s| - 1]] && t == other + [t[|t| - 1]];
    }
  }

  lemma FrontMembers(s: seq<int>, x: int)
    requires Increasing(s) && s != []
    ensures x in s[..|s| - 1] <==> x in s && x != s[|s| - 1]
  {
    assert s == s[..|s| - 1] + [s[|s| - 1]];
  }

  /** Whether the sessions both have are all sessions of one side within the span of the other. */
  lemma SpanCovered(ours: seq<int>, theirs: seq<int>, common: seq<int>, low: int, high: int)
    requires Increasing(ours) && Increasing(common) && theirs != []
    requires forall s :: s in common <==> s in ours && s in theirs
    requires forall s :: s in theirs ==> low <= s <= high
    ensures common == Select(ours, Column(ours, s => low <= s <= high)) <==>
            forall i :: 0 <= i < |ours| && low <= ours[i] <= high ==> ours[i] in theirs
  {
    var mask := Column(ours, s => low <= s <= high);
    var span := Select(ours, mask);
    ChosenMembers(ours, mask, |ours|);
    ChosenIncreasing(ours, mask, |ours|);
    if forall i :: 0 <= i < |ours| && low <= ours[i] <= high ==> ours[i] in theirs {
      forall s ensures s in common <==> s in span {
        if s in common {
          var i :| 0 <= i < |ours| && ours[i] == s;
          assert mask[i];
        }
      }
      IncreasingIsUnique(common, span);
    }
    if common == span {
      forall i | 0 <= i < |ours| && low <= ours[i] <= high ensures ours[i] in theirs {
        assert mask[i];
      }
    }
  }

  lemma Spans(sessions: seq<int>)
    requires Increasing(sessions) && sessions != []
    ensures forall s :: s in sessions ==> sessions[0] <= s <= sessions[|sessions| - 1]
  {
  }

  /** The sessions both have, as the builder lists them. */
  lemma CommonSessions(ours: seq<int>, theirs: seq<int>)
    requires Increasing(ours)
    ensures var common := Select(ours, Column(ours, s => s in theirs));
            Increasing(common) && forall s :: s in common <==> s in ours && s in theirs
  {
    var mask := Column(ours, s => s in theirs);
    ChosenMembers(ours, mask, |ours|);
    ChosenIncreasing(ours, mask, |ours|);
    forall s | s in ours && s in theirs ensures s in Select(ours, mask) {
      var i :| 0 <= i < |ours| && ours[i] == s;
      assert mask[i];
    }
  }

  /** Every outcome of the alignment. */
  lemma AlignmentOutcome(features: seq<FeatureRow>, labels: seq<LabelRow>)
    requires features != [] && labels != []
    requires Increasing(Column(features, FeatureSession)) && Increasing(Column(labels, LabelSession))
    ensures var (r, shared) := (BuildSupervisedDataset(features, labels), SomeShared(features, labels));
            var unlabelled := exists i :: 0 <= i < |features| && Unlabelled(i, features, labels);
            var unmatched := exists j :: 0 <= j < |labels| && Unmatched(j, features, labels);
            && (r == Err(NoCommonSessions) <==> !shared)
            && (r == Err(MissingLabels) <==> shared && unlabelled)
            && (r == Err(ExtraLabels) <==> shared && !unlabelled && unmatched)
            && (r.Ok? <==> shared && !unlabelled && !unmatched)
  {
    hide IndexBy, Select, Increasing, Unlabelled, Unmatched, SomeShared, BuildSupervisedDataset;
    var ours, theirs := Column(features, FeatureSession), Column(labels, LabelSession);
    var common := Select(ours, Column(ours, s => s in theirs));
    CommonSessions(ours, theirs);
    BuilderChecks(features, labels, common);
    Spans(ours);
    Spans(theirs);
    SpanCovered(ours, theirs, common, theirs[0], theirs[|theirs| - 1]);
    SpanCovered(theirs, ours, common, ours[0], ours[|ours| - 1]);
    SharedIsCommon(features, labels, common);
    UncoveredFeatures(features, labels);
    UncoveredLabels(features, labels);
  }

  lemma SharedIsCommon(features: seq<FeatureRow>, labels: seq<LabelRow>, common: seq<int>)
    requires forall s :: s in common <==> s in Column(features, FeatureSession) && s in Column(labels, LabelSession)
    ensures SomeShared(features, labels) <==> common != []
  {
    if SomeShared(features, labels) {
      var i, j :| 0 <= i < |features| && 0 <= j < |labels| && features[i].session == labels[j].session;
      ColumnMembers(features, FeatureSession, features[i].session);
      ColumnMembers(labels, LabelSession, features[i].session);
    }
    if common != [] {
      assert common[0] in common;
      ColumnMembers(features, FeatureSession, common[0]);
      ColumnMembers(labels, LabelSession, common[0]);
    }
  }

  lemma UncoveredFeatures(features: seq<FeatureRow>, labels: seq<LabelRow>)
    requires features != [] && labels != []
    ensures var (ours, theirs) := (Column(features, FeatureSession), Column(labels, LabelSession));
            (exists i :: 0 <= i < |features| && Unlabelled(i, features, labels)) <==>
            !(forall i :: 0 <= i < |ours| && theirs[0] <= ours[i] <= theirs[|theirs| - 1] ==> ours[i] in theirs)
  {
    var ours, theirs := Column(features, FeatureSession), Column(labels, LabelSession);
    forall i | 0 <= i < |features|
      ensures Unlabelled(i, features, labels) <==>
              theirs[0] <= ours[i] <= theirs[|theirs| - 1] && ours[i] !in theirs
    {
      ColumnMembers(labels, LabelSession, ours[i]);
    }
    hide Unlabelled;
  }

  lemma UncoveredLabels(features: seq<FeatureRow>, labels: seq<LabelRow>)
    requires features != [] && labels != []
    ensures var (ours, theirs) := (Column(features, FeatureSession), Column(labels, LabelSession));
            (exists j :: 0 <= j < |labels| && Unmatched(j, features, labels)) <==>
            !(forall j :: 0 <= j < |theirs| && ours[0] <= theirs[j] <= ours[|ours| - 1] ==> theirs[j] in ours)
  {
    var ours, theirs := Column(features, FeatureSession), Column(labels, LabelSession);
    forall j | 0 <= j < |labels|
      ensures Unmatched(j, features, labels) <==>
              ours[0] <= theirs[j] <= ours[|ours| - 1] && theirs[j] !in ours
    {
      ColumnMembers(features, FeatureSession, theirs[j]);
    }
    hide Unmatched;
  }

  /** What comes out holds exactly the rows whose session both sides have. */
  lemma AlignedExactly(features: seq<FeatureRow>, labels: seq<LabelRow>)
    requires features != [] && labels != []
    requires Increasing(Column(features, FeatureSession)) && Increasing(Column(labels, LabelSession))
    requires BuildSupervisedDataset(features, labels).Ok?
    ensures SideBySide(BuildSupervisedDataset(features, labels).value, features, labels)
  {
    hide IndexBy, Increasing, Select, BuildSupervisedDataset;
    var s := BuildSupervisedDataset(features, labels).value;
    var ours, theirs := Column(features, FeatureSession), Column(labels, LabelSession);
    var common := Select(ours, Column(ours, x => x in theirs));
    CommonSessions(ours, theirs);
    BuiltRows(features, labels, common);
    var mask := Column(ours, x => x in common);
    SelectedSessions(features, common);
    LabelsOfCommon(s, features, labels, common);
    FeaturesOfCommon(s, features, labels, common);
    IncreasingPairs(Column(s.features, FeatureSession));
  }

  lemma IncreasingPairs(sessions: seq<int>)
    requires Increasing(sessions)
    ensures forall a, b :: 0 <= a < b < |sessions| ==> sessions[a] < sessions[b]
  {
  }

  /** The selected feature rows have exactly the common sessions. */
  lemma SelectedSessions(features: seq<FeatureRow>, common: seq<int>)
    requires Increasing(Column(features, FeatureSession)) && Increasing(common)
    requires forall s :: s in common ==> s in Column(features, FeatureSession)
    ensures var ours := Column(features, FeatureSession);
            var picked := Select(features, Column(ours, x => x in common));
            && Column(picked, FeatureSession) == common
            && forall f :: f in picked <==> f in features && f.session in common
  {
    var ours := Column(features, FeatureSession);
    var mask := Column(ours, x => x in common);
    var picked := Select(features, mask);
    ChosenColumn(features, FeatureSession, mask, |features|);
    ChosenMembers(ours, mask, |ours|);
    ChosenIncreasing(ours, mask, |ours|);
    forall s ensures s in common <==> s in Select(ours, mask) {
      if s in common {
        var i :| 0 <= i < |ours| && ours[i] == s;
        assert mask[i];
      }
    }
    IncreasingIsUnique(common, Select(ours, mask));
    ChosenMembers(features, mask, |features|);
    forall f ensures f in picked <==> f in features && f.session in common {
      if f in features && f.session in common {
        var i :| 0 <= i < |features| && features[i] == f;
        assert mask[i];
      }
    }
  }

  lemma LabelsOfCommon(s: Supervised, features: seq<FeatureRow>, labels: seq<LabelRow>, common: seq<int>)
    requires Increasing(Column(labels, LabelSession))
    requires forall x :: x in common <==> x in Column(features, FeatureSession) && x in Column(labels, LabelSession)
    requires |s.labels| == |common|
    requires forall k :: 0 <= k < |common| ==> common[k] in IndexBy(labels, LabelSession)
                                                && s.labels[k] == IndexBy(labels, LabelSession)[common[k]]
    ensures forall k :: 0 <= k < |common| ==> s.labels[k].session == common[k]
    ensures forall l :: l in s.labels <==> l in labels && exists f :: f in features && f.session == l.session
  {
    hide IndexBy;
    KeysOfIncreasing(labels);
    IndexByFacts(labels, LabelSession);
    forall l ensures l in s.labels <==> l in labels && exists f :: f in features && f.session == l.session {
      ColumnMembers(features, FeatureSession, l.session);
      ColumnMembers(labels, LabelSession, l.session);
      if l in s.labels {
        var k :| 0 <= k < |s.labels| && s.labels[k] == l;
        assert common[k] in common;
      }
      if l in labels && exists f :: f in features && f.session == l.session {
        var f :| f in features && f.session == l.session;
        var i :| 0 <= i < |features| && features[i] == f;
        assert FeatureSession(features[i]) == l.session;
        var j :| 0 <= j < |labels| && labels[j] == l;
        assert LabelSession(labels[j]) == l.session;
        assert l.session in common;
        var k :| 0 <= k < |common| && common[k] == l.session;
        assert s.labels[k] == l;
      }
    }
  }

  lemma FeaturesOfCommon(s: Supervised, features: seq<FeatureRow>, labels: seq<LabelRow>, common: seq<int>)
    requires forall x :: x in common <==> x in Column(features, FeatureSession) && x in Column(labels, LabelSession)
    requires forall f :: f in s.features <==> f in features && f.session in common
    ensures forall f :: f in s.features <==> f in features && exists l :: l in labels && l.session == f.session
  {
    forall f | f in features ensures f.session in common <==> exists l :: l in labels && l.session == f.session {
      ColumnMembers(features, FeatureSession, f.session);
      ColumnMembers(labels, LabelSession, f.session);
      var i :| 0 <= i < |features| && features[i] == f;
      assert FeatureSession(features[i]) == f.session;
      if l :| l in labels && l.session == f.session {
        var j :| 0 <= j < |labels| && labels[j] == l;
        assert LabelSession(labels[j]) == f.session;
      }
    }
  }
}
