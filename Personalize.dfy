/**
 * Prompt personalisation (`build_personalized_messages` in backend/main.py): the
 * request becomes an ordered table of template variables, and every `{name}`
 * placeholder of the configured prompt messages is replaced, one variable at a time
 * in the table's order; without configured messages a fixed two-message prompt is used.
 */
module Personalize {
  import opened Wrappers
  import opened Text
  import opened AiConfig

  /** `ThankYouRequest` as the backend receives it. */
  datatype ThankYouRequest = ThankYouRequest(
    giftGiverName: string,
    giftDescription: string,
    relationship: string,
    additionalNotes: Option<string>,
    nextMeeting: Option<string>)

  /** The five template variables the backend can define. */
  datatype VarName = GiftDescription | GiftGiverName | RelationshipVar | AdditionalNotes | NextMeeting

  /** The dict key each variable is stored under, and the name its placeholder uses. */
  function Key(v: VarName): (r: string) {
    match v
    case GiftDescription => "gift_description"
    case GiftGiverName => "gift_giver_name"
    case RelationshipVar => "relationship"
    case AdditionalNotes => "additional_notes"
    case NextMeeting => "next_meeting"
  }

  /** Template variables: a Python dict, so an ordered list of (name, value) entries. */
  type Variables = seq<(VarName, string)>

  /** Relationship keywords and the phrase the prompt uses for each. */
  const RelationshipContext: map<string, string> := map[
    "family" := "family member",
    "friend" := "dear friend",
    "colleague" := "colleague",
    "family friend" := "family friend"]

  /** `relationship_context.get(relationship, relationship)`. */
  function RelationshipPhrase(relationship: string): (r: string) {
    if relationship in RelationshipContext then RelationshipContext[relationship] else relationship
  }

  lemma RelationshipPhrases(relationship: string)
    ensures RelationshipPhrase("family") == "family member"
    ensures RelationshipPhrase("friend") == "dear friend"
    ensures RelationshipPhrase("colleague") == "colleague"
    ensures RelationshipPhrase("family friend") == "family friend"
    ensures relationship !in {"family", "friend", "colleague", "family friend"} ==>
      RelationshipPhrase(relationship) == relationship
  {
  }

  /** An optional field counts when it is present and not blank; it is then stored stripped. */
  function FilledIn(field: Option<string>): (r: Option<string>) {
    if field.Some? && !IsBlank(Python, field.value) then Some(Trim(Python, field.value)) else None
  }

  function OptionalEntry(name: VarName, field: Option<string>): (r: Variables) {
    match FilledIn(field)
    case Some(v) => [(name, v)]
    case None => []
  }

  /** The three entries every request contributes. */
  function FixedVariables(request: ThankYouRequest): (r: Variables) {
    [(GiftDescription, request.giftDescription),
     (GiftGiverName, request.giftGiverName),
     (RelationshipVar, RelationshipPhrase(request.relationship))]
  }

  /** The template-variable table, in insertion order. */
  function TemplateVariables(request: ThankYouRequest): (r: Variables) {
    FixedVariables(request)
    + OptionalEntry(AdditionalNotes, request.additionalNotes)
    + OptionalEntry(NextMeeting, request.nextMeeting)
  }

  /** The value a dict lookup finds for `name`: the first entry with that name. */
  function Lookup(vars: Variables, name: VarName): (r: Option<string>) {
    if vars == [] then None
    else if vars[0].0 == name then Some(vars[0].1)
    else Lookup(vars[1..], name)
  }

  /** The names of the entries, as a set. */
  function Names(vars: Variables): (r: set<VarName>) {
    set j | 0 <= j < |vars| :: vars[j].0
  }

  /** A name a placeholder can be made from: it holds no brace. */
  predicate IsPlainName(name: string) {
    '{' !in name && '}' !in name
  }

  /** `f"{{{name}}}"`. */
  function Placeholder(name: string): (p: string)
    ensures |p| == |name| + 2 && p[0] == '{' && p[|p| - 1] == '}'
  {
    "{" + name + "}"
  }

  /** The content after every entry's placeholder has been replaced, entry after entry. */
  function SubstituteAll(content: string, vars: Variables): (r: string)
    decreases |vars|
  {
    if vars == [] then content
    else SubstituteAll(ReplaceAll(content, Placeholder(Key(vars[0].0)), vars[0].1), vars[1..])
  }

  function Substituted(m: Message, vars: Variables): (r: Message) {
    Message(m.role, SubstituteAll(m.content, vars))
  }

  /** Every message with the variables substituted in its content, in the same order. */
  function SubstitutedAll(ms: seq<Message>, vars: Variables): (r: seq<Message>)
    ensures |r| == |ms| && forall j :: 0 <= j < |r| ==> r[j].role == ms[j].role
  {
    seq(|ms|, j requires 0 <= j < |ms| => Substituted(ms[j], vars))
  }

  const FallbackSystemPrompt: string :=
    "You are a helpful assistant that writes personalized wedding thank you notes."

  function FallbackUserPrompt(request: ThankYouRequest): (r: string) {
    "Write a heartfelt thank you note for " + request.giftDescription
      + " from " + request.giftGiverName + "."
  }

  /** The configured messages to personalise, if the config has any. */
  predicate HasMessages(config: AIConfig) {
    config.messages.Some? && config.messages.value != []
  }

  /** What `build_personalized_messages` returns. */
  function PersonalizedMessages(request: ThankYouRequest, config: AIConfig): (r: seq<Message>)
    ensures HasMessages(config) ==>
      |r| == |config.messages.value| &&
      forall j :: 0 <= j < |r| ==> r[j].role == config.messages.value[j].role
    ensures !HasMessages(config) ==> |r| == 2 && r[0].role == "system" && r[1].role == "user"
  {
    if HasMessages(config) then
      var ms := config.messages.value;
      SubstitutedAll(ms, TemplateVariables(request))
    else
      [Message("system", FallbackSystemPrompt), Message("user", FallbackUserPrompt(request))]
  }

  /** The dict insertions at the start of `build_personalized_messages`. */
  method BuildTemplateVariables(request: ThankYouRequest) returns (templateVariables: Variables)
    ensures templateVariables == TemplateVariables(request)
  {
    templateVariables := [
      (GiftDescription, request.giftDescription),
      (GiftGiverName, request.giftGiverName),
      (RelationshipVar, RelationshipPhrase(request.relationship))];
    assert templateVariables == FixedVariables(request);
    if request.additionalNotes.Some? && !IsBlank(Python, request.additionalNotes.value) {
      templateVariables := templateVariables + [(AdditionalNotes, Trim(Python, request.additionalNotes.value))];
    }
    assert templateVariables == FixedVariables(request) + OptionalEntry(AdditionalNotes, request.additionalNotes);
    ghost var before := templateVariables;
    if request.nextMeeting.Some? && !IsBlank(Python, request.nextMeeting.value) {
      templateVariables := templateVariables + [(NextMeeting, Trim(Python, request.nextMeeting.value))];
    }
    assert templateVariables == before + OptionalEntry(NextMeeting, request.nextMeeting);
  }

  /**
   * The two nested loops of `build_personalized_messages`: for each configured message,
   * replace each variable's placeholder in turn, and keep the message's role.
   */
  method SubstituteMessages(messages: seq<Message>, templateVariables: Variables)
    returns (personalized: seq<Message>)
    ensures personalized == SubstitutedAll(messages, templateVariables)
  {
    personalized := [];
    var i := 0;
    while i < |messages|
      invariant 0 <= i <= |messages|
      invariant |personalized| == i
      invariant forall j :: 0 <= j < i ==> personalized[j] == Substituted(messages[j], templateVariables)
    {
      var content := messages[i].content;
      var v := 0;
      while v < |templateVariables|
        invariant 0 <= v <= |templateVariables|
        invariant SubstituteAll(content, templateVariables[v..]) == SubstituteAll(messages[i].content, templateVariables)
      {
        var (name, value) := templateVariables[v];
        assert templateVariables[v..][1..] == templateVariables[v + 1..];
        content := ReplaceAll(content, Placeholder(Key(name)), value);
        v := v + 1;
      }
      personalized := personalized + [Message(messages[i].role, content)];
      i := i + 1;
    }
  }

  /** `build_personalized_messages`: the variable table, then the configured messages or the fallback prompt. */
  method BuildPersonalizedMessages(request: ThankYouRequest, config: AIConfig)
    returns (personalized: seq<Message>)
    ensures personalized == PersonalizedMessages(request, config)
  {
    var templateVariables := BuildTemplateVariables(request);
    if config.messages.Some? && config.messages.value != [] {
      personalized := SubstituteMessages(config.messages.value, templateVariables);
    } else {
      personalized := [
        Message("system", FallbackSystemPrompt),
        Message("user", FallbackUserPrompt(request))];
    }
  }
}

/** What the personalisation promises, stated over the specification functions above. */
module PersonalizeProperties {
  import opened Wrappers
  import opened Text
  import opened AiConfig
  import opened Personalize

  // ----- Placeholders of plain names never overlap -----

  /** Where a placeholder of a plain name occurs: a '{', then no brace, then a '}'. */
  lemma PlaceholderShape(s: string, k: string, a: nat)
    requires IsPlainName(k) && OccursAt(s, Placeholder(k), a)
    ensures s[a] == '{' && s[a + |k| + 1] == '}'
    ensures forall t :: a < t < a + |k| + 1 ==> s[t] != '{' && s[t] != '}'
  {
    var p := Placeholder(k);
    assert forall t :: 0 <= t < |p| ==> s[a + t] == p[t];
    assert forall t :: 0 < t < |p| - 1 ==> p[t] == k[t - 1];
    forall t | a < t < a + |k| + 1 ensures s[t] != '{' && s[t] != '}' {
      assert s[t] == p[t - a] == k[t - a - 1];
    }
  }

  /** Two placeholders that start at the same index are the same placeholder. */
  lemma SamePlaceholderStart(s: string, k1: string, k2: string, a: nat)
    requires IsPlainName(k1) && IsPlainName(k2)
    ensures OccursAt(s, Placeholder(k1), a) && OccursAt(s, Placeholder(k2), a) ==> k1 == k2
  {
    var p1, p2 := Placeholder(k1), Placeholder(k2);
    if OccursAt(s, p1, a) && OccursAt(s, p2, a) {
      PlaceholderShape(s, k1, a);
      PlaceholderShape(s, k2, a);
      assert |p1| == |p2|;
      assert p1 == s[a..a + |p1|] == p2;
      assert k1 == p1[1..|p1| - 1] == p2[1..|p2| - 1] == k2;
    }
  }

  /** A placeholder cannot start strictly inside another one. */
  lemma PlaceholderStartsOutside(s: string, k1: string, k2: string, i: nat)
    requires IsPlainName(k1) && IsPlainName(k2)
    requires OccursAt(s, Placeholder(k1), 0) && OccursAt(s, Placeholder(k2), i)
    ensures i == 0 || i >= |Placeholder(k1)|
  {
    PlaceholderShape(s, k1, 0);
    PlaceholderShape(s, k2, i);
  }

  /** An occurrence survives dropping a prefix that ends before it. */
  lemma OccursInSuffix(s: string, q: string, i: nat, d: nat)
    requires OccursAt(s, q, i) && d <= i
    ensures OccursAt(s[d..], q, i - d)
  {
    assert s[d..][i - d..i - d + |q|] == s[i..i + |q|];
  }

  /** Putting text in front keeps every occurrence. */
  lemma ContainsAfterPrefix(pre: string, r: string, q: string)
    requires Contains(r, q)
    ensures Contains(pre + r, q)
  {
    var j: nat :| j <= |r| && OccursAt(r, q, j);
    assert (pre + r)[|pre| + j..|pre| + j + |q|] == r[j..j + |q|];
    assert OccursAt(pre + r, q, |pre| + j);
  }

  /** An occurrence at the very start of a string that does not start with the pattern is kept. */
  lemma ReplaceKeepsLeadingPlaceholder(s: string, k1: string, k2: string, rep: string)
    requires IsPlainName(k1) && IsPlainName(k2)
    requires OccursAt(s, Placeholder(k2), 0) && |s| >= |Placeholder(k1)|
    requires s[..|Placeholder(k1)|] != Placeholder(k1)
    ensures Contains(ReplaceAll(s, Placeholder(k1), rep), Placeholder(k2))
  {
    var pat, q := Placeholder(k1), Placeholder(k2);
    var tail := q[1..];
    assert '{' !in tail by {
      assert forall t :: 0 <= t < |tail| - 1 ==> tail[t] == k2[t];
    }
    assert s[1..] == tail + s[|q|..];
    ReplaceKeepsPrefix(tail, s[|q|..], pat, rep);
    var r := ReplaceAll(s, pat, rep);
    assert r == [s[0]] + tail + ReplaceAll(s[|q|..], pat, rep);
    assert r[..|q|] == q;
    assert OccursAt(r, q, 0);
  }

  /**
   * Replacing the placeholder of one plain name keeps an occurrence of the
   * placeholder of another plain name.
   */
  lemma {:induction false} ReplaceKeepsPlaceholder(s: string, k1: string, k2: string, rep: string, i: nat)
    requires IsPlainName(k1) && IsPlainName(k2) && k1 != k2
    requires OccursAt(s, Placeholder(k2), i)
    ensures Contains(ReplaceAll(s, Placeholder(k1), rep), Placeholder(k2))
    decreases |s|
  {
    var pat, q := Placeholder(k1), Placeholder(k2);
    if |s| < |pat| {
      assert OccursAt(ReplaceAll(s, pat, rep), q, i);
    } else if s[..|pat|] == pat {
      SamePlaceholderStart(s, k1, k2, 0);
      PlaceholderStartsOutside(s, k1, k2, i);
      OccursInSuffix(s, q, i, |pat|);
      ReplaceKeepsPlaceholder(s[|pat|..], k1, k2, rep, i - |pat|);
      ContainsAfterPrefix(rep, ReplaceAll(s[|pat|..], pat, rep), q);
    } else if i > 0 {
      OccursInSuffix(s, q, i, 1);
      ReplaceKeepsPlaceholder(s[1..], k1, k2, rep, i - 1);
      ContainsAfterPrefix([s[0]], ReplaceAll(s[1..], pat, rep), q);
    } else {
      ReplaceKeepsLeadingPlaceholder(s, k1, k2, rep);
    }
  }

  // ----- Substitution over a whole variable table -----

  /** Substituting a table is substituting its first part, then the rest: insertion order decides. */
  lemma {:induction false} SubstituteAllSequential(content: string, a: Variables, b: Variables)
    ensures SubstituteAll(content, a + b) == SubstituteAll(SubstituteAll(content, a), b)
    decreases |a|
  {
    if a == [] {
      assert a + b == b;
    } else {
      assert (a + b)[1..] == a[1..] + b;
      SubstituteAllSequential(ReplaceAll(content, Placeholder(Key(a[0].0)), a[0].1), a[1..], b);
    }
  }

  /** Content that holds no placeholder of any of the table's names comes out unchanged. */
  lemma {:induction false} SubstituteAllAbsent(content: string, vars: Variables)
    requires forall v :: v in Names(vars) ==> !Contains(content, Placeholder(Key(v)))
    ensures SubstituteAll(content, vars) == content
    decreases |vars|
  {
    if vars != [] {
      assert vars[0].0 in Names(vars);
      ReplaceAbsent(content, Placeholder(Key(vars[0].0)), vars[0].1);
      NamesOfTail(vars);
      SubstituteAllAbsent(content, vars[1..]);
    }
  }

  /** Every key is a plain name, and different variables have different keys. */
  lemma KeysArePlainAndDistinct()
    ensures forall v :: IsPlainName(Key(v))
    ensures forall v, w :: Key(v) == Key(w) ==> v == w
  {
    KeysArePlain();
    KeysAreDistinct();
  }

  lemma KeysArePlain()
    ensures forall v :: IsPlainName(Key(v))
  {
    forall v ensures IsPlainName(Key(v)) {
      match v {
        case GiftDescription => assert IsPlainName("gift_description");
        case GiftGiverName => assert IsPlainName("gift_giver_name");
        case RelationshipVar => assert IsPlainName("relationship");
        case AdditionalNotes => assert IsPlainName("additional_notes");
        case NextMeeting => assert IsPlainName("next_meeting");
      }
    }
  }

  /** Keys of equal length differ in their first character. */
  lemma KeysAreDistinct()
    ensures forall v, w :: Key(v) == Key(w) ==> v == w
  {
    forall v, w | Key(v) == Key(w) ensures v == w {
      assert |Key(v)| == |Key(w)| && Key(v)[0] == Key(w)[0];
    }
  }

  /** The placeholder of a plain name no entry of the table is keyed by survives substitution. */
  lemma {:induction false} SubstituteAllKeepsPlaceholder(content: string, vars: Variables, name: string)
    requires IsPlainName(name) && forall v :: v in Names(vars) ==> Key(v) != name
    requires Contains(content, Placeholder(name))
    ensures Contains(SubstituteAll(content, vars), Placeholder(name))
    decreases |vars|
  {
    if vars != [] {
      KeysArePlainAndDistinct();
      assert vars[0].0 in Names(vars);
      var i: nat :| i <= |content| && OccursAt(content, Placeholder(name), i);
      ReplaceKeepsPlaceholder(content, Key(vars[0].0), name, vars[0].1, i);
      NamesOfTail(vars);
      SubstituteAllKeepsPlaceholder(ReplaceAll(content, Placeholder(Key(vars[0].0)), vars[0].1), vars[1..], name);
    }
  }

  /** Text without a '{' holds no placeholder. */
  lemma BraceFreeHasNoPlaceholder(s: string, k: string)
    requires '{' !in s
    ensures !Contains(s, Placeholder(k))
  {
    forall i: nat | i <= |s| ensures !OccursAt(s, Placeholder(k), i) {
      if i + |Placeholder(k)| <= |s| {
        assert s[i..i + |Placeholder(k)|][0] == s[i];
      }
    }
  }

  /** Text without a '{' in front passes through the whole substitution untouched. */
  lemma {:induction false} SubstituteKeepsPrefix(pre: string, w: string, vars: Variables)
    requires '{' !in pre
    ensures SubstituteAll(pre + w, vars) == pre + SubstituteAll(w, vars)
    decreases |vars|
  {
    if vars != [] {
      var q := Placeholder(Key(vars[0].0));
      ReplaceKeepsPrefix(pre, w, q, vars[0].1);
      SubstituteKeepsPrefix(pre, ReplaceAll(w, q, vars[0].1), vars[1..]);
    }
  }

  /** Past its opening '{', the placeholder of a plain name holds no '{'. */
  lemma PlaceholderTailBraceFree(k: string)
    requires IsPlainName(k)
    ensures '{' !in Placeholder(k)[1..]
  {
    assert Placeholder(k)[1..] == k + "}";
  }

  /** The placeholder of another plain name does not start anywhere inside `Placeholder(k1)`. */
  lemma ReplaceSkipsPlaceholder(k1: string, k2: string, u: string, rep: string)
    requires IsPlainName(k1) && IsPlainName(k2) && k1 != k2
    ensures ReplaceAll(Placeholder(k1) + u, Placeholder(k2), rep) == Placeholder(k1) + ReplaceAll(u, Placeholder(k2), rep)
  {
    var p, q := Placeholder(k1), Placeholder(k2);
    var s := p + u;
    if |s| < |q| {
      assert ReplaceAll(u, q, rep) == u;
    } else {
      assert OccursAt(s, p, 0) by {
        assert s[..|p|] == p;
      }
      SamePlaceholderStart(s, k1, k2, 0);
      assert ReplaceAll(s, q, rep) == [s[0]] + ReplaceAll(s[1..], q, rep);
      PlaceholderTailBraceFree(k1);
      assert s[1..] == p[1..] + u;
      ReplaceKeepsPrefix(p[1..], u, q, rep);
      assert [s[0]] + p[1..] == p;
    }
  }

  /** The first entry's own placeholder becomes its value, and the rest is substituted on. */
  lemma FillFirstEntry(t: string, u: string, vars: Variables)
    requires vars != [] && '{' !in t && '{' !in vars[0].1
    ensures SubstituteAll(t + Placeholder(Key(vars[0].0)) + u, vars) == t + vars[0].1 + SubstituteAll(u, vars)
  {
    var p, rep := Placeholder(Key(vars[0].0)), vars[0].1;
    var rest := ReplaceAll(u, p, rep);
    ReplaceAfterPrefix(t, u, p, rep);
    assert SubstituteAll(t + p + u, vars) == SubstituteAll(t + rep + rest, vars[1..]);
    assert SubstituteAll(u, vars) == SubstituteAll(rest, vars[1..]);
    SubstituteKeepsPrefix(t + rep, rest, vars[1..]);
  }

  /** The first entry, keyed by another name, leaves the placeholder and the text before it alone. */
  lemma SkipFirstEntry(t: string, u: string, vars: Variables, v: VarName)
    requires vars != [] && vars[0].0 != v && '{' !in t
    ensures var rest := ReplaceAll(u, Placeholder(Key(vars[0].0)), vars[0].1);
      && SubstituteAll(t + Placeholder(Key(v)) + u, vars) == SubstituteAll(t + Placeholder(Key(v)) + rest, vars[1..])
      && SubstituteAll(u, vars) == SubstituteAll(rest, vars[1..])
  {
    var p, q, rep := Placeholder(Key(v)), Placeholder(Key(vars[0].0)), vars[0].1;
    var rest := ReplaceAll(u, q, rep);
    ReplaceKeepsOtherPlaceholder(t, u, Key(v), Key(vars[0].0), rep) by {
      KeysArePlain();
      KeysAreDistinct();
    }
    assert ReplaceAll(t + p + u, q, rep) == t + p + rest;
  }

  /** Replacing one plain name's placeholder leaves another's, and the brace-free text before it, alone. */
  lemma ReplaceKeepsOtherPlaceholder(t: string, u: string, k1: string, k2: string, rep: string)
    requires IsPlainName(k1) && IsPlainName(k2) && k1 != k2 && '{' !in t
    ensures ReplaceAll(t + Placeholder(k1) + u, Placeholder(k2), rep)
      == t + Placeholder(k1) + ReplaceAll(u, Placeholder(k2), rep)
  {
    var p, q := Placeholder(k1), Placeholder(k2);
    assert t + p + u == t + (p + u);
    ReplaceKeepsPrefix(t, p + u, q, rep);
    ReplaceSkipsPlaceholder(k1, k2, u, rep);
    assert t + (p + ReplaceAll(u, q, rep)) == t + p + ReplaceAll(u, q, rep);
  }

  /**
   * A placeholder of a name the table holds, after text without a '{', is replaced by that
   * name's value (the first entry's, as a dict lookup finds it); the text after it is
   * substituted on. This holds when no value brings a '{' of its own.
   */
  lemma {:induction false} SubstituteFillsPlaceholder(t: string, u: string, vars: Variables, v: VarName)
    requires '{' !in t && v in Names(vars)
    requires forall j :: 0 <= j < |vars| ==> '{' !in vars[j].1
    ensures Lookup(vars, v).Some?
    ensures SubstituteAll(t + Placeholder(Key(v)) + u, vars) == t + Lookup(vars, v).value + SubstituteAll(u, vars)
    decreases |vars|
  {
    if vars[0].0 == v {
      FillFirstEntry(t, u, vars);
    } else {
      NamesOfTail(vars);
      SkipFirstEntry(t, u, vars, v);
      assert forall j :: 0 <= j < |vars[1..]| ==> vars[1..][j].1 == vars[j + 1].1;
      SubstituteFillsPlaceholder(t, ReplaceAll(u, Placeholder(Key(vars[0].0)), vars[0].1), vars[1..], v);
    }
  }

  // ----- The variable table built from a request -----

  lemma NamesOfTail(vars: Variables)
    requires vars != []
    ensures Names(vars) == {vars[0].0} + Names(vars[1..])
  {
    forall n | n in Names(vars) ensures n == vars[0].0 || n in Names(vars[1..]) {
      var j :| 0 <= j < |vars| && vars[j].0 == n;
      if j > 0 { assert vars[1..][j - 1].0 == n; }
    }
    forall n | n in Names(vars[1..]) ensures n in Names(vars) {
      var j :| 0 <= j < |vars[1..]| && vars[1..][j].0 == n;
      assert vars[j + 1].0 == n;
    }
  }

  /** A dict lookup finds an entry exactly for the names the table holds. */
  lemma {:induction false} LookupFindsNames(vars: Variables, name: VarName)
    ensures name in Names(vars) <==> Lookup(vars, name).Some?
    decreases |vars|
  {
    if vars != [] {
      NamesOfTail(vars);
      LookupFindsNames(vars[1..], name);
    }
  }

  /** A dict lookup in a concatenation finds the first part's entry when there is one. */
  lemma {:induction false} LookupConcat(a: Variables, b: Variables, name: VarName)
    ensures Lookup(a + b, name) == if name in Names(a) then Lookup(a, name) else Lookup(b, name)
    decreases |a|
  {
    if a == [] {
      assert a + b == b;
    } else {
      assert (a + b)[1..] == a[1..] + b;
      NamesOfTail(a);
      LookupConcat(a[1..], b, name);
    }
  }

  lemma NamesConcat(a: Variables, b: Variables)
    ensures Names(a + b) == Names(a) + Names(b)
  {
    forall n | n in Names(a + b) ensures n in Names(a) + Names(b) {
      var j :| 0 <= j < |a + b| && (a + b)[j].0 == n;
      if j >= |a| { assert b[j - |a|].0 == n; } else { assert a[j].0 == n; }
    }
    forall n | n in Names(a) + Names(b) ensures n in Names(a + b) {
      if n in Names(a) {
        var j :| 0 <= j < |a| && a[j].0 == n;
        assert (a + b)[j].0 == n;
      } else {
        var j :| 0 <= j < |b| && b[j].0 == n;
        assert (a + b)[|a| + j].0 == n;
      }
    }
  }

  /** The entry an optional field contributes, and when it contributes one. */
  lemma OptionalEntryFacts(name: VarName, field: Option<string>)
    ensures Names(OptionalEntry(name, field)) == if FilledIn(field).Some? then {name} else {}
    ensures Lookup(OptionalEntry(name, field), name) == FilledIn(field)
  {
    if FilledIn(field).Some? {
      assert OptionalEntry(name, field)[0].0 == name;
    }
  }

  /** An optional field is filled in exactly when it is present and not all white space; it is kept stripped. */
  lemma FilledInMeaning(field: Option<string>)
    ensures FilledIn(field).Some? <==> field.Some? && !AllSpace(Python, field.value)
    ensures FilledIn(field).Some? ==> FilledIn(field).value == Trim(Python, field.value)
  {
  }

  /** The fixed entries hold exactly the three fixed names. */
  lemma FixedNames(request: ThankYouRequest)
    ensures forall v :: v in Names(FixedVariables(request)) <==>
      v == GiftDescription || v == GiftGiverName || v == RelationshipVar
  {
    var fixed := FixedVariables(request);
    assert fixed[0].0 == GiftDescription && fixed[1].0 == GiftGiverName && fixed[2].0 == RelationshipVar;
  }

  /** Which names the table holds: the three fixed ones, and each optional one that is filled in. */
  lemma TemplateNames(request: ThankYouRequest)
    ensures var names := Names(TemplateVariables(request));
      && GiftDescription in names && GiftGiverName in names && RelationshipVar in names
      && (AdditionalNotes in names <==> FilledIn(request.additionalNotes).Some?)
      && (NextMeeting in names <==> FilledIn(request.nextMeeting).Some?)
  {
    var fixed := FixedVariables(request);
    var notes := OptionalEntry(AdditionalNotes, request.additionalNotes);
    var meeting := OptionalEntry(NextMeeting, request.nextMeeting);
    NamesOfThreeParts(fixed, notes, meeting);
    FixedNames(request);
    OptionalEntryFacts(AdditionalNotes, request.additionalNotes);
    OptionalEntryFacts(NextMeeting, request.nextMeeting);
    NamesOfParts(Names(fixed), FilledIn(request.additionalNotes).Some?, Names(notes),
      FilledIn(request.nextMeeting).Some?, Names(meeting));
  }

  lemma NamesOfThreeParts(a: Variables, b: Variables, c: Variables)
    ensures Names(a + b + c) == Names(a) + Names(b) + Names(c)
  {
    NamesConcat(a + b, c);
    NamesConcat(a, b);
  }

  lemma NamesOfParts(fixed: set<VarName>, hasNotes: bool, notes: set<VarName>, hasMeeting: bool, meeting: set<VarName>)
    requires forall v :: v in fixed <==> v == GiftDescription || v == GiftGiverName || v == RelationshipVar
    requires notes == if hasNotes then {AdditionalNotes} else {}
    requires meeting == if hasMeeting then {NextMeeting} else {}
    ensures var names := fixed + notes + meeting;
      && GiftDescription in names && GiftGiverName in names && RelationshipVar in names
      && (AdditionalNotes in names <==> hasNotes)
      && (NextMeeting in names <==> hasMeeting)
  {
  }

  /** The table holds the gift description, the giver's name and the relationship phrase. */
  lemma FixedVariableValues(request: ThankYouRequest)
    ensures var vars := TemplateVariables(request);
      && Lookup(vars, GiftDescription) == Some(request.giftDescription)
      && Lookup(vars, GiftGiverName) == Some(request.giftGiverName)
      && Lookup(vars, RelationshipVar) == Some(RelationshipPhrase(request.relationship))
  {
    var fixed := FixedVariables(request);
    var rest := OptionalEntry(AdditionalNotes, request.additionalNotes)
      + OptionalEntry(NextMeeting, request.nextMeeting);
    assert TemplateVariables(request) == fixed + rest;
    FixedLookup(request, rest, GiftDescription);
    FixedLookup(request, rest, GiftGiverName);
    FixedLookup(request, rest, RelationshipVar);
  }

  /** A lookup of one of the fixed names is answered by the fixed entries, whatever follows them. */
  lemma FixedLookup(request: ThankYouRequest, rest: Variables, name: VarName)
    requires name == GiftDescription || name == GiftGiverName || name == RelationshipVar
    ensures Lookup(FixedVariables(request) + rest, name) ==
      Some(match name
           case GiftDescription => request.giftDescription
           case GiftGiverName => request.giftGiverName
           case _ => RelationshipPhrase(request.relationship))
  {
    var all := FixedVariables(request) + rest;
    assert all[0] == (GiftDescription, request.giftDescription);
    if name != GiftDescription {
      assert all[1..][0] == (GiftGiverName, request.giftGiverName);
      if name != GiftGiverName {
        assert all[1..][1..][0] == (RelationshipVar, RelationshipPhrase(request.relationship));
        assert Lookup(all[1..], name) == Lookup(all[1..][1..], name);
      }
    }
  }

  /**
   * `additional_notes` (and likewise `next_meeting`) is in the table exactly when that
   * field is present and not blank, and its value is then the stripped text.
   */
  lemma OptionalVariableValues(request: ThankYouRequest)
    ensures var vars := TemplateVariables(request);
      && (AdditionalNotes in Names(vars) <==>
            request.additionalNotes.Some? && !AllSpace(Python, request.additionalNotes.value))
      && (AdditionalNotes in Names(vars) ==>
            Lookup(vars, AdditionalNotes) == Some(Trim(Python, request.additionalNotes.value)))
      && (NextMeeting in Names(vars) <==>
            request.nextMeeting.Some? && !AllSpace(Python, request.nextMeeting.value))
      && (NextMeeting in Names(vars) ==>
            Lookup(vars, NextMeeting) == Some(Trim(Python, request.nextMeeting.value)))
  {
    var fixed := FixedVariables(request);
    var notes := OptionalEntry(AdditionalNotes, request.additionalNotes);
    var meeting := OptionalEntry(NextMeeting, request.nextMeeting);
    OptionalEntryFacts(AdditionalNotes, request.additionalNotes);
    OptionalEntryFacts(NextMeeting, request.nextMeeting);
    FilledInMeaning(request.additionalNotes);
    FilledInMeaning(request.nextMeeting);
    TemplateNames(request);
    FixedNames(request);
    assert TemplateVariables(request) == fixed + (notes + meeting);
    LookupConcat(fixed, notes + meeting, AdditionalNotes);
    LookupConcat(fixed, notes + meeting, NextMeeting);
    LookupConcat(notes, meeting, AdditionalNotes);
    LookupConcat(notes, meeting, NextMeeting);
  }

  // ----- The personalised messages -----

  /** A configured message without a placeholder for any of the table's names comes out unchanged. */
  lemma MessageWithoutPlaceholdersUnchanged(request: ThankYouRequest, config: AIConfig, j: nat)
    requires HasMessages(config) && j < |config.messages.value|
    requires forall v :: v in Names(TemplateVariables(request)) ==>
      !Contains(config.messages.value[j].content, Placeholder(Key(v)))
    ensures PersonalizedMessages(request, config)[j] == config.messages.value[j]
  {
    SubstituteAllAbsent(config.messages.value[j].content, TemplateVariables(request));
  }

  /** A placeholder whose name is none of the table's keys stays in the personalised message. */
  lemma UnknownPlaceholderKept(request: ThankYouRequest, config: AIConfig, j: nat, name: string)
    requires HasMessages(config) && j < |config.messages.value|
    requires IsPlainName(name) && forall v :: v in Names(TemplateVariables(request)) ==> Key(v) != name
    requires Contains(config.messages.value[j].content, Placeholder(name))
    ensures Contains(PersonalizedMessages(request, config)[j].content, Placeholder(name))
  {
    SubstituteAllKeepsPlaceholder(config.messages.value[j].content, TemplateVariables(request), name);
  }

  /** An optional field that is absent or blank leaves its literal placeholder in the prompt. */
  lemma OmittedFieldPlaceholderKept(request: ThankYouRequest, config: AIConfig, j: nat, field: VarName)
    requires HasMessages(config) && j < |config.messages.value|
    requires field == AdditionalNotes ==>
      request.additionalNotes.None? || AllSpace(Python, request.additionalNotes.value)
    requires field == NextMeeting ==>
      request.nextMeeting.None? || AllSpace(Python, request.nextMeeting.value)
    requires field == AdditionalNotes || field == NextMeeting
    requires Contains(config.messages.value[j].content, Placeholder(Key(field)))
    ensures Contains(PersonalizedMessages(request, config)[j].content, Placeholder(Key(field)))
  {
    TemplateNames(request);
    FilledInMeaning(request.additionalNotes);
    FilledInMeaning(request.nextMeeting);
    KeysArePlainAndDistinct();
    UnknownPlaceholderKept(request, config, j, Key(field));
  }

  /**
   * In a configured message, a table variable's placeholder that follows text without a '{'
   * comes out as that variable's value, with the rest of the message substituted on, when no
   * value holds a '{'. So the value ends up in the personalised text.
   */
  lemma PlaceholderMessageFilled(request: ThankYouRequest, config: AIConfig, j: nat, t: string, v: VarName, u: string)
    requires HasMessages(config) && j < |config.messages.value|
    requires config.messages.value[j].content == t + Placeholder(Key(v)) + u && '{' !in t
    requires v in Names(TemplateVariables(request))
    requires forall k :: 0 <= k < |TemplateVariables(request)| ==> '{' !in TemplateVariables(request)[k].1
    ensures var m := PersonalizedMessages(request, config)[j];
      var value := Lookup(TemplateVariables(request), v);
      && m.role == config.messages.value[j].role
      && value.Some?
      && m.content == t + value.value + SubstituteAll(u, TemplateVariables(request))
      && Contains(m.content, value.value)
  {
    var vars := TemplateVariables(request);
    SubstituteFillsPlaceholder(t, u, vars, v);
    var value := Lookup(vars, v).value;
    var c := t + value + SubstituteAll(u, vars);
    assert c[|t|..|t| + |value|] == value;
    assert OccursAt(c, value, |t|);
  }

  /** A content that ends with a table variable's placeholder ends with its value. */
  lemma TrailingPlaceholderFilled(b: string, v: VarName, vars: Variables)
    requires '{' !in b && v in Names(vars)
    requires forall j :: 0 <= j < |vars| ==> '{' !in vars[j].1
    ensures Lookup(vars, v).Some?
    ensures SubstituteAll(b + Placeholder(Key(v)), vars) == b + Lookup(vars, v).value
  {
    assert b + Placeholder(Key(v)) == b + Placeholder(Key(v)) + [];
    SubstituteFillsPlaceholder(b, [], vars, v);
    forall w | w in Names(vars) ensures !Contains([], Placeholder(Key(w))) {
      BraceFreeHasNoPlaceholder([], Key(w));
    }
    SubstituteAllAbsent([], vars);
  }

  /**
   * A content of two placeholders after brace-free texts, as in
   * "Thank {gift_giver_name} for the {gift_description}": both values end up in the text,
   * each in place of its placeholder, when no value holds a '{'.
   */
  lemma TwoPlaceholdersFilled(a: string, v1: VarName, b: string, v2: VarName, vars: Variables)
    requires '{' !in a && '{' !in b && v1 in Names(vars) && v2 in Names(vars)
    requires forall j :: 0 <= j < |vars| ==> '{' !in vars[j].1
    ensures Lookup(vars, v1).Some? && Lookup(vars, v2).Some?
    ensures SubstituteAll(a + Placeholder(Key(v1)) + b + Placeholder(Key(v2)), vars)
      == a + Lookup(vars, v1).value + b + Lookup(vars, v2).value
  {
    var p1, p2 := Placeholder(Key(v1)), Placeholder(Key(v2));
    SubstituteFillsPlaceholder(a, b + p2, vars, v1);
    TrailingPlaceholderFilled(b, v2, vars);
    Regroup(a, p1, b, p2, vars, Lookup(vars, v1).value, Lookup(vars, v2).value);
  }

  lemma Regroup(a: string, p1: string, b: string, p2: string, vars: Variables, x1: string, x2: string)
    requires SubstituteAll(a + p1 + (b + p2), vars) == a + x1 + SubstituteAll(b + p2, vars)
    requires SubstituteAll(b + p2, vars) == b + x2
    ensures SubstituteAll(a + p1 + b + p2, vars) == a + x1 + b + x2
  {
    assert a + p1 + b + p2 == a + p1 + (b + p2);
    assert a + x1 + (b + x2) == a + x1 + b + x2;
  }

  /** Without configured messages: the fixed system prompt, then a user prompt naming the gift and the giver. */
  lemma FallbackPrompt(request: ThankYouRequest, config: AIConfig)
    requires !HasMessages(config)
    ensures var r := PersonalizedMessages(request, config);
      && r[0].content == FallbackSystemPrompt
      && Contains(r[1].content, request.giftDescription)
      && Contains(r[1].content, request.giftGiverName)
  {
    var prefix := "Write a heartfelt thank you note for ";
    var u := FallbackUserPrompt(request);
    var d, g := request.giftDescription, request.giftGiverName;
    assert u == prefix + d + " from " + g + ".";
    assert u[|prefix|..|prefix| + |d|] == d;
    assert OccursAt(u, d, |prefix|);
    var k := |prefix| + |d| + |" from "|;
    assert u[k..k + |g|] == g;
    assert OccursAt(u, g, k);
  }
}
