/** The resolver the discovery helper depends on, made a value: two pure
    functions, one answering TXT queries and one answering AAAA queries. A
    failed lookup is an explicit `Err` carrying the resolver's own cause, where
    the helper returns an `{error: ...}` object instead of a value. */
module Dns {

  /** What a failed lookup reports (Node's resolver gives codes such as
      ENOTFOUND or ETIMEOUT); it is carried along unchanged. */
  datatype DnsError = DnsError(code: string)

  /** The outcome of one lookup, or of the whole aggregation. */
  datatype Result<+T> = Ok(value: T) | Err(cause: DnsError)

  datatype RecordKind = Txt | Aaaa

  /** One question put to the resolver. */
  datatype Query = Query(kind: RecordKind, name: string)

  /** TXT answers are records, each a list of character strings; AAAA answers
      are IPv6 addresses in text form, in the order the resolver gives them. */
  datatype Resolver = Resolver(
    txt: string -> Result<seq<seq<string>>>,
    aaaa: string -> Result<seq<string>>)

  /** A successful TXT answer holds a first string in its first record. */
  predicate TxtShaped(answer: Result<seq<seq<string>>>)
  {
    answer.Ok? ==> |answer.value| > 0 && |answer.value[0]| > 0
  }

  /** Every successful TXT answer of the resolver is shaped. */
  ghost predicate WellShaped(dns: Resolver)
  {
    forall name :: TxtShaped(dns.txt(name))
  }

  function AskTxt(dns: Resolver, q: Query): Result<seq<seq<string>>>
    requires q.kind == Txt
  {
    dns.txt(q.name)
  }

  function AskAaaa(dns: Resolver, q: Query): Result<seq<string>>
    requires q.kind == Aaaa
  {
    dns.aaaa(q.name)
  }

  /** Two resolvers give the same answer to `q`. */
  predicate AgreeAt(a: Resolver, b: Resolver, q: Query)
  {
    match q.kind
    case Txt => a.txt(q.name) == b.txt(q.name)
    case Aaaa => a.aaaa(q.name) == b.aaaa(q.name)
  }

  /** Two resolvers give the same answers to every query of `qs`. */
  predicate AgreeOn(a: Resolver, b: Resolver, qs: seq<Query>)
  {
    forall i :: 0 <= i < |qs| ==> AgreeAt(a, b, qs[i])
  }
}
