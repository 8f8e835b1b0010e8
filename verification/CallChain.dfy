/** Call-chain deadlock detection: the chain travels as one comma-separated string
    in the request context. */
module CallChain {
  import opened Text
  import opened Grains

  const CALL_CHAIN_KEY: string := "__orlando_call_chain"

  /** An immutable key-value context. */
  datatype RequestContext = RequestContext(values: map<string, string>) {

    function Get(key: string): Option<string> {
      if key in values then Some(values[key]) else None
    }

    function With(key: string, value: string): RequestContext {
      RequestContext(values[key := value])
    }

    function Chain(): string {
      if CALL_CHAIN_KEY in values then values[CALL_CHAIN_KEY] else ""
    }

    /** `with_call_chain_entry`. */
    function WithEntry(g: GrainId): RequestContext {
      With(CALL_CHAIN_KEY, if Chain() == "" then KeyOf(g) else Chain() + "," + KeyOf(g))
    }

    /** `is_in_call_chain`. */
    predicate IsInChain(g: GrainId) {
      Get(CALL_CHAIN_KEY).Some? && KeyOf(g) in Split(Chain(), ',')
    }
  }

  const NO_CONTEXT: RequestContext := RequestContext(map[])

  /** What pushing a grain adds to the answers of `is_in_call_chain`: the pieces its
      own rendering falls into at commas. */
  lemma PushAddsPieces(ctx: RequestContext, g: GrainId, h: GrainId)
    ensures ctx.WithEntry(g).IsInChain(h) <==> ctx.IsInChain(h) || KeyOf(h) in Split(KeyOf(g), ',')
  {
    assert ctx.WithEntry(g).Get(CALL_CHAIN_KEY) == Some(ctx.WithEntry(g).Chain());
    if ctx.Chain() == "" {
      assert Split("", ',') == [""];
      assert KeyOf(h) != "";
    } else {
      SplitConcat(ctx.Chain(), KeyOf(g), ',');
      assert ctx.Chain() + [','] + KeyOf(g) == ctx.Chain() + "," + KeyOf(g);
    }
  }

  /** A grain just pushed is found again exactly when its rendering has no comma. */
  lemma PushedIsFoundIffNoComma(ctx: RequestContext, g: GrainId)
    ensures ctx.WithEntry(g).IsInChain(g) <==> ',' !in KeyOf(g)
  {
    PushAddsPieces(ctx, g, g);
    if ',' in KeyOf(g) {
      PiecesLackSeparator(KeyOf(g), ',');
      PiecesLackSeparator(ctx.Chain(), ',');
    } else {
      SplitWithoutSeparator(KeyOf(g), ',');
    }
  }

  /** An id with no comma and no '/' in the type name. */
  predicate Plain(g: GrainId) {
    ',' !in g.typeName && ',' !in g.key && '/' !in g.typeName
  }

  function Pushed(start: RequestContext, gs: seq<GrainId>): RequestContext {
    if gs == [] then start else Pushed(start, gs[..|gs| - 1]).WithEntry(gs[|gs| - 1])
  }

  /** One of the grains has `h`'s rendering among the comma-separated pieces of its own. */
  ghost predicate Mentions(gs: seq<GrainId>, h: GrainId) {
    exists i :: 0 <= i < |gs| && KeyOf(h) in Split(KeyOf(gs[i]), ',')
  }

  lemma MentionsSnoc(init: seq<GrainId>, g: GrainId, h: GrainId)
    ensures Mentions(init + [g], h) <==> Mentions(init, h) || KeyOf(h) in Split(KeyOf(g), ',')
  {
    var gs := init + [g];
    assert gs[|init|] == g && forall i :: 0 <= i < |init| ==> gs[i] == init[i];
  }

  /** For any ids, `is_in_call_chain` answers whether the grain was in the chain before or
      its rendering is a piece of a pushed one. */
  lemma {:induction false} ChainAnswers(start: RequestContext, gs: seq<GrainId>, h: GrainId)
    ensures Pushed(start, gs).IsInChain(h) <==> start.IsInChain(h) || Mentions(gs, h)
  {
    if gs != [] {
      var init, g := gs[..|gs| - 1], gs[|gs| - 1];
      ChainAnswers(start, init, h);
      PushAnswers(Pushed(start, init), init, g, h, start.IsInChain(h));
      assert gs == init + [g];
    }
  }

  lemma PushAnswers(ctx: RequestContext, init: seq<GrainId>, g: GrainId, h: GrainId, before: bool)
    requires ctx.IsInChain(h) <==> before || Mentions(init, h)
    ensures ctx.WithEntry(g).IsInChain(h) <==> before || Mentions(init + [g], h)
  {
    PushAddsPieces(ctx, g, h);
    MentionsSnoc(init, g, h);
  }

  lemma PlainMentions(gs: seq<GrainId>, h: GrainId)
    requires Plain(h) && forall i :: 0 <= i < |gs| ==> Plain(gs[i])
    ensures Mentions(gs, h) <==> h in gs
  {
    forall i | 0 <= i < |gs|
      ensures KeyOf(h) in Split(KeyOf(gs[i]), ',') <==> gs[i] == h
    {
      SplitWithoutSeparator(KeyOf(gs[i]), ',');
      KeyOfInjective(gs[i], h);
    }
  }

  /** For plain ids it answers exactly whether the grain was pushed. */
  lemma ChainAnswersExactly(start: RequestContext, gs: seq<GrainId>, h: GrainId)
    requires Plain(h) && forall i :: 0 <= i < |gs| ==> Plain(gs[i])
    ensures Pushed(start, gs).IsInChain(h) <==> start.IsInChain(h) || h in gs
  {
    ChainAnswers(start, gs, h);
    PlainMentions(gs, h);
  }

  // --- Nested asks ---

  datatype AskResult = DeadlockDetected | Entered(ctx: RequestContext)

  /** `GrainRef::ask`, up to the handler: refused if the target is already in the
      chain, otherwise the handler runs with the target pushed. */
  function Ask(ctx: RequestContext, target: GrainId): AskResult {
    if ctx.IsInChain(target) then DeadlockDetected else Entered(ctx.WithEntry(target))
  }

  /** Each handler asks the next grain, in the context it was itself entered with. */
  function Asked(start: RequestContext, gs: seq<GrainId>): AskResult {
    if gs == [] then Entered(start)
    else
      match Asked(start, gs[..|gs| - 1])
      case DeadlockDetected => DeadlockDetected
      case Entered(ctx) => Ask(ctx, gs[|gs| - 1])
  }

  /** No grain of the chain is in the context before, or mentioned by an earlier one. */
  ghost predicate Unmentioned(start: RequestContext, gs: seq<GrainId>) {
    forall j :: 0 <= j < |gs| ==> !start.IsInChain(gs[j]) && !Mentions(gs[..j], gs[j])
  }

  /** For any ids, a chain of nested asks is admitted exactly when none of its grains is
      mentioned before it is asked; then the last handler's context has them all pushed. */
  lemma {:induction false} AskedIffUnmentioned(start: RequestContext, gs: seq<GrainId>)
    ensures Asked(start, gs).Entered? <==> Unmentioned(start, gs)
    ensures Asked(start, gs).Entered? ==> Asked(start, gs).ctx == Pushed(start, gs)
  {
    if gs != [] {
      var init, g := gs[..|gs| - 1], gs[|gs| - 1];
      AskedIffUnmentioned(start, init);
      ChainAnswers(start, init, g);
      UnmentionedSnoc(start, gs);
    }
  }

  lemma UnmentionedSnoc(start: RequestContext, gs: seq<GrainId>)
    requires gs != []
    ensures var init, g := gs[..|gs| - 1], gs[|gs| - 1];
            Unmentioned(start, gs) <==> Unmentioned(start, init) && !start.IsInChain(g) && !Mentions(init, g)
  {
    var init := gs[..|gs| - 1];
    assert forall j :: 0 <= j < |init| ==> init[j] == gs[j] && init[..j] == gs[..j];
  }

  /** The other values of the context travel along unchanged. */
  lemma {:induction false} AsksKeepValues(start: RequestContext, gs: seq<GrainId>, key: string)
    requires Asked(start, gs).Entered? && key != CALL_CHAIN_KEY
    ensures Asked(start, gs).ctx.Get(key) == start.Get(key)
  {
    if gs != [] {
      AsksKeepValues(start, gs[..|gs| - 1], key);
    }
  }

  predicate NoRepeats(gs: seq<GrainId>) {
    forall i, j :: 0 <= i < j < |gs| ==> gs[i] != gs[j]
  }

  lemma NoRepeatsSnoc(init: seq<GrainId>, g: GrainId)
    ensures NoRepeats(init + [g]) <==> NoRepeats(init) && g !in init
  {
    var gs := init + [g];
    if NoRepeats(gs) {
      forall i, j | 0 <= i < j < |init|
        ensures init[i] != init[j]
      {
        assert gs[i] == init[i] && gs[j] == init[j];
      }
      forall i | 0 <= i < |init|
        ensures init[i] != g
      {
        assert gs[i] == init[i] && gs[|init|] == g;
      }
    }
  }

  lemma AskAfter(init: seq<GrainId>, g: GrainId)
    requires Plain(g) && forall i :: 0 <= i < |init| ==> Plain(init[i])
    requires Asked(NO_CONTEXT, init).Entered?
    ensures Ask(Asked(NO_CONTEXT, init).ctx, g).Entered? <==> g !in init
  {
    AskedIffUnmentioned(NO_CONTEXT, init);
    ChainAnswersExactly(NO_CONTEXT, init, g);
  }

  /** Of plain ids, a chain of nested asks is admitted exactly when no grain occurs twice
      in it: every call cycle is refused, and nothing else is. */
  lemma {:induction false} NestedIffNoRepeats(gs: seq<GrainId>)
    requires forall i :: 0 <= i < |gs| ==> Plain(gs[i])
    ensures Asked(NO_CONTEXT, gs).Entered? <==> NoRepeats(gs)
  {
    if gs != [] {
      var init, g := gs[..|gs| - 1], gs[|gs| - 1];
      NestedIffNoRepeats(init);
      if Asked(NO_CONTEXT, init).Entered? {
        AskAfter(init, g);
      }
      NoRepeatsSnoc(init, g);
      assert gs == init + [g];
    }
  }

  /** A grain whose rendering has a comma may ask itself to any depth. */
  lemma CommaCycleIsAdmitted(g: GrainId, gs: seq<GrainId>)
    requires ',' in KeyOf(g) && forall i :: 0 <= i < |gs| ==> gs[i] == g
    ensures Asked(NO_CONTEXT, gs).Entered?
  {
    PiecesLackSeparator(KeyOf(g), ',');
    forall j | 0 <= j < |gs|
      ensures !Mentions(gs[..j], gs[j])
    {
    }
    AskedIffUnmentioned(NO_CONTEXT, gs);
  }

  lemma {:induction false} NoRepeatsBounded(gs: seq<GrainId>, grains: set<GrainId>)
    requires NoRepeats(gs) && forall i :: 0 <= i < |gs| ==> gs[i] in grains
    ensures |gs| <= |grains|
  {
    if gs != [] {
      NoRepeatsBounded(gs[..|gs| - 1], grains - {gs[|gs| - 1]});
    }
  }

  /** Nested asks are at most as deep as there are grains. */
  lemma DepthBounded(gs: seq<GrainId>, grains: set<GrainId>)
    requires Asked(NO_CONTEXT, gs).Entered? && forall i :: 0 <= i < |gs| ==> Plain(gs[i]) && gs[i] in grains
    ensures |gs| <= |grains|
  {
    NestedIffNoRepeats(gs);
    NoRepeatsBounded(gs, grains);
  }

  /** A comma in a key makes the chain report a grain that was never called. */
  lemma CommaReportsInnocentGrain(t: string, a: string, b: string)
    requires ',' !in t && ',' !in b
    ensures Ask(NO_CONTEXT.WithEntry(GrainId(t, a + "," + Composite(t, b))), GrainId(t, b)) == DeadlockDetected
  {
    var g, h := GrainId(t, a + "," + Composite(t, b)), GrainId(t, b);
    PushAddsPieces(NO_CONTEXT, g, h);
    assert KeyOf(g) == Composite(t, a) + [','] + KeyOf(h);
    SplitConcat(Composite(t, a), KeyOf(h), ',');
    SplitWithoutSeparator(KeyOf(h), ',');
  }
}
