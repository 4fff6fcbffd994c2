/** Subscription filtering: Source.All and the two conditions that drive
    the event loop of AttachManager.Listen. */
module Filter {
  import opened Types
  import opened GoStrings

  /** Source.All: no identity criterion is set. */
  predicate All(s: Source) {
    s.id == "" && s.name == "" && s.filter == ""
  }

  /** Listen replaces a nil source by `new(Source)`, the zero value. */
  function Normalize(source: Option<Source>): (s: Source)
    ensures source.None? ==> All(s) && s.types == []
    ensures source.Some? ==> s == source.value
  {
    match source
    case None => Source("", "", "", [])
    case Some(src) => src
  }

  /** The condition under which Listen registers its log stream on the event's pump. */
  predicate AttachMatches(s: Source, e: AttachEvent) {
    e.typ == ATTACH &&
    (All(s) ||
     (s.id != "" && HasPrefix(e.id, s.id)) ||
     (s.name != "" && e.name == s.name) ||
     (s.filter != "" && Contains(e.name, s.filter)))
  }

  /** The condition under which Listen returns on a detach event. */
  predicate DetachTerminates(s: Source, e: AttachEvent) {
    s.id != "" && e.typ == DETACH && HasPrefix(e.id, s.id)
  }

  /** What one received event makes Listen do. */
  datatype Action = Register | Stop | Skip

  /** The if / else-if of the select's event case: the attach test is tried first. */
  function Classify(s: Source, e: AttachEvent): Action {
    if AttachMatches(s, e) then Register
    else if DetachTerminates(s, e) then Stop
    else Skip
  }

  /** The match rule restated with prefix and substring as occurrences. */
  lemma AttachMatchRule(s: Source, e: AttachEvent)
    ensures Classify(s, e) == Register <==>
      && e.typ == ATTACH
      && (|| (s.id == "" && s.name == "" && s.filter == "")
          || (s.id != "" && exists rest :: e.id == s.id + rest)
          || (s.name != "" && e.name == s.name)
          || (s.filter != "" && exists k :: OccursAt(e.name, s.filter, k)))
  {
    HasPrefixIff(e.id, s.id);
    ContainsIff(e.name, s.filter);
  }

  /** Listen stops on an event only when the filter is ID-scoped and the event
      is a detach whose ID starts with that prefix. */
  lemma StopRule(s: Source, e: AttachEvent)
    ensures Classify(s, e) == Stop <==>
      s.id != "" && e.typ == DETACH && exists rest :: e.id == s.id + rest
  {
    HasPrefixIff(e.id, s.id);
  }

  /** A match-all filter registers on every attach event and never stops. */
  lemma MatchAllRule(s: Source, e: AttachEvent)
    requires All(s)
    ensures Classify(s, e) == (if e.typ == ATTACH then Register else Skip)
  {
  }

  /** The reserved `types` field cannot change what Listen does. */
  lemma TypesNotConsulted(s: Source, types: seq<string>, e: AttachEvent)
    ensures Classify(s.(types := types), e) == Classify(s, e)
  {
  }
}
