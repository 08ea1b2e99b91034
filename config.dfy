/**
 * The process-wide compaction settings and the partial update the `/config`
 * endpoint applies to them.
 */
module Config {
  import opened Wrappers

  /** The settings. `provider` and `model` name the summarising model; `None`
      means the one the conversation itself uses. */
  datatype CompactionConfig = CompactionConfig(
    enabled: bool,
    threshold: real,
    provider: Option<string>,
    model: Option<string>,
    notifyUser: bool,
    useSimplePrompt: bool,
    summaryPrompt: string,
    simplePrompt: string)

  const DefaultSummaryPrompt: string :=
    "Please provide a comprehensive summary of the conversation so far. Preserve:\n"
    + "- All critical context and decisions\n"
    + "- User preferences and constraints\n"
    + "- Technical details and requirements\n"
    + "- Code snippets and configurations\n"
    + "- Conversation flow and key topics\n"
    + "\n"
    + "Be thorough but concise. This summary will replace the conversation history."

  const DefaultSimplePrompt: string :=
    "Summarize this conversation concisely. Include: key decisions, requirements, code context, and current task. Be brief."

  /** The settings in force before any file or update changes them. */
  const DefaultConfig: CompactionConfig :=
    CompactionConfig(true, 0.8, None, None, true, false, DefaultSummaryPrompt, DefaultSimplePrompt)

  /** The keys an update request carries; `None` is a key that is absent.
      `provider` and `model` may be present with the value `null`. */
  datatype ConfigPatch = ConfigPatch(
    enabled: Option<bool>,
    threshold: Option<real>,
    provider: Option<Option<string>>,
    model: Option<Option<string>>,
    notifyUser: Option<bool>,
    useSimplePrompt: Option<bool>,
    summaryPrompt: Option<string>,
    simplePrompt: Option<string>)

  const EmptyPatch: ConfigPatch := ConfigPatch(None, None, None, None, None, None, None, None)

  /** The settings after an update: each key present overwrites its field. */
  function Merged(c: CompactionConfig, p: ConfigPatch): CompactionConfig
  {
    CompactionConfig(
      p.enabled.GetOr(c.enabled),
      p.threshold.GetOr(c.threshold),
      p.provider.GetOr(c.provider),
      p.model.GetOr(c.model),
      p.notifyUser.GetOr(c.notifyUser),
      p.useSimplePrompt.GetOr(c.useSimplePrompt),
      p.summaryPrompt.GetOr(c.summaryPrompt),
      p.simplePrompt.GetOr(c.simplePrompt))
  }

  /** The keys of `p` and of `q`, with `q` winning where both have one
      (`{**p, **q}`). */
  function Override(p: ConfigPatch, q: ConfigPatch): ConfigPatch
  {
    ConfigPatch(
      if q.enabled.Some? then q.enabled else p.enabled,
      if q.threshold.Some? then q.threshold else p.threshold,
      if q.provider.Some? then q.provider else p.provider,
      if q.model.Some? then q.model else p.model,
      if q.notifyUser.Some? then q.notifyUser else p.notifyUser,
      if q.useSimplePrompt.Some? then q.useSimplePrompt else p.useSimplePrompt,
      if q.summaryPrompt.Some? then q.summaryPrompt else p.summaryPrompt,
      if q.simplePrompt.Some? then q.simplePrompt else p.simplePrompt)
  }

  /** An update without keys changes nothing. */
  lemma MergedEmpty(c: CompactionConfig)
    ensures Merged(c, EmptyPatch) == c
  {
  }

  /** Applying the same update twice is applying it once. */
  lemma MergedIdempotent(c: CompactionConfig, p: ConfigPatch)
    ensures Merged(Merged(c, p), p) == Merged(c, p)
  {
  }

  /** Two updates in a row are one update carrying both sets of keys, the later
      ones winning. */
  lemma MergedSequential(c: CompactionConfig, p: ConfigPatch, q: ConfigPatch)
    ensures Merged(Merged(c, p), q) == Merged(c, Override(p, q))
  {
  }

  /** A field whose key is absent from the update keeps its value. */
  lemma MergedKeepsAbsent(c: CompactionConfig, p: ConfigPatch)
    ensures p.enabled.None? ==> Merged(c, p).enabled == c.enabled
    ensures p.threshold.None? ==> Merged(c, p).threshold == c.threshold
    ensures p.provider.None? ==> Merged(c, p).provider == c.provider
    ensures p.model.None? ==> Merged(c, p).model == c.model
    ensures p.notifyUser.None? ==> Merged(c, p).notifyUser == c.notifyUser
    ensures p.useSimplePrompt.None? ==> Merged(c, p).useSimplePrompt == c.useSimplePrompt
    ensures p.summaryPrompt.None? ==> Merged(c, p).summaryPrompt == c.summaryPrompt
    ensures p.simplePrompt.None? ==> Merged(c, p).simplePrompt == c.simplePrompt
  {
  }
}
