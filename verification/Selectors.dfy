/** Label selectors as the API machinery reads them
    (metav1.LabelSelectorAsSelector and labels.Requirement). */
module Selectors {
  import opened Text

  datatype Operator = In | NotIn | Exists | DoesNotExist | UnknownOperator

  datatype Expression = Expression(key: string, op: Operator, values: seq<string>)

  datatype Selector = Selector(matchLabels: map<string, string>, expressions: seq<Expression>)

  // ---- Syntax of keys and values ----------------------------------------------

  predicate Lower(c: char) { 'a' <= c <= 'z' || '0' <= c <= '9' }

  predicate Alphanumeric(c: char) { Lower(c) || 'A' <= c <= 'Z' }

  /** Starts and ends with an alphanumeric character; '-', '_', '.' inside. */
  predicate NameShape(s: string) {
    && s != "" && Alphanumeric(s[0]) && Alphanumeric(s[|s| - 1])
    && forall i :: 0 <= i < |s| ==> Alphanumeric(s[i]) || s[i] in ['-', '_', '.']
  }

  predicate ValidLabelValue(v: string) {
    |v| <= 63 && (v == "" || NameShape(v))
  }

  predicate DnsLabel(s: string) {
    && s != "" && Lower(s[0]) && Lower(s[|s| - 1])
    && forall i :: 0 <= i < |s| ==> Lower(s[i]) || s[i] == '-'
  }

  predicate DnsSubdomain(s: string) {
    |s| <= 253 && forall i :: 0 <= i < |Split(s, '.')| ==> DnsLabel(Split(s, '.')[i])
  }

  /** A qualified name: an optional DNS subdomain, '/', and a name. */
  predicate ValidKey(k: string) {
    var parts := Split(k, '/');
    var name := parts[|parts| - 1];
    && |parts| <= 2 && |name| <= 63 && NameShape(name)
    && (|parts| == 2 ==> DnsSubdomain(parts[0]))
  }

  /** A name without a prefix is a key. */
  lemma PlainNameIsKey(k: string)
    requires NameShape(k) && |k| <= 63 && '/' !in k
    ensures ValidKey(k)
  {
    SplitWord(k, '/');
  }

  predicate ValidExpression(e: Expression) {
    && ValidKey(e.key)
    && (forall i :: 0 <= i < |e.values| ==> ValidLabelValue(e.values[i]))
    && match e.op
       case In => e.values != []
       case NotIn => e.values != []
       case Exists => e.values == []
       case DoesNotExist => e.values == []
       case UnknownOperator => false
  }

  /** The selector can be converted. */
  predicate Convertible(s: Selector) {
    && (forall k :: k in s.matchLabels ==> ValidKey(k) && ValidLabelValue(s.matchLabels[k]))
    && (forall i :: 0 <= i < |s.expressions| ==> ValidExpression(s.expressions[i]))
  }

  predicate Empty(s: Selector) {
    s.matchLabels == map[] && s.expressions == []
  }

  // ---- Matching ------------------------------------------------------------------

  predicate MatchesExpression(e: Expression, labels: map<string, string>) {
    match e.op
    case In => e.key in labels && labels[e.key] in e.values
    case NotIn => e.key in labels ==> labels[e.key] !in e.values
    case Exists => e.key in labels
    case DoesNotExist => e.key !in labels
    case UnknownOperator => false
  }

  /** The operators come in opposite pairs; wanting one value is wanting a label. */
  lemma OperatorsAreOpposites(key: string, values: seq<string>, labels: map<string, string>)
    ensures MatchesExpression(Expression(key, NotIn, values), labels) <==>
              !MatchesExpression(Expression(key, In, values), labels)
    ensures MatchesExpression(Expression(key, DoesNotExist, values), labels) <==>
              !MatchesExpression(Expression(key, Exists, values), labels)
    ensures MatchesExpression(Expression(key, Exists, values), labels) <==>
              exists v :: MatchesExpression(Expression(key, In, [v]), labels)
    ensures forall v :: MatchesExpression(Expression(key, In, [v]), labels) <==> MatchesLabels(map[key := v], labels)
  {
    if key in labels {
      assert MatchesExpression(Expression(key, In, [labels[key]]), labels);
    }
    forall v
      ensures MatchesExpression(Expression(key, In, [v]), labels) <==> MatchesLabels(map[key := v], labels)
    {
      assert key in map[key := v];
    }
  }

  predicate MatchesLabels(want: map<string, string>, labels: map<string, string>) {
    forall k :: k in want ==> k in labels && labels[k] == want[k]
  }

  predicate Matches(s: Selector, labels: map<string, string>) {
    && MatchesLabels(s.matchLabels, labels)
    && forall i :: 0 <= i < |s.expressions| ==> MatchesExpression(s.expressions[i], labels)
  }

  /** Without expressions, adding labels under other keys keeps a match, and a
      non-empty selector never matches the empty label set. */
  lemma MatchLabelsOnly(s: Selector, labels: map<string, string>, more: map<string, string>)
    requires s.expressions == [] && Matches(s, labels)
    requires forall k :: k in more && k in labels ==> more[k] == labels[k]
    ensures Matches(s, labels + more)
    ensures !Empty(s) ==> labels != map[]
  {
    if !Empty(s) {
      var k :| k in s.matchLabels;
      assert k in labels;
    }
  }
}
