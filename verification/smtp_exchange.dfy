/** The AUTH exchanges, with the steps they take on the connection. */
module SmtpExchange {
  import opened Base64
  import opened SmtpModel
  import opened SmtpTrace
  import opened Text

  /** An error the hook gives at some point. */
  ghost predicate AuthError(env: Env, reply: Reply) {
    reply.Raw? && exists n: nat :: env.auth(n).error == Some(reply.text)
  }

  /** From `w` to `v` only challenges, further lines and a question to the hook. The
      hook is asked at most once, and `end` is what it said: a reply of the exchange's own
      or an error of the hook. */
  ghost predicate Exchanged(env: Env, w: Wire, v: Wire, end: AuthEnd) {
    && Between(w.trace, v.trace)
    && v.input.ending == w.input.ending
    && match end
       case NoLine => Logins(v.trace) == Logins(w.trace)
       case Verdict(ok) => Logins(v.trace) == Logins(w.trace) + if ok then 1 else 0
       case Failed(ok, reply) =>
         && Logins(v.trace) == Logins(w.trace) + (if ok then 1 else 0)
         && ((!ok && reply.Reply? && reply.code == 501) || AuthError(env, reply))
  }

  /** Nothing but challenges and lines read so far. */
  predicate Reading(w: Wire, v: Wire) {
    Between(w.trace, v.trace) && Logins(v.trace) == Logins(w.trace) && v.input.ending == w.input.ending
  }

  lemma ChallengeReads(u: Wire, w: Wire)
    requires Reading(u, w)
    ensures Reading(u, ReadMore(Say(w, 334, "")).0)
  {
    var said := Say(w, 334, "");
    BetweenStep(u.trace, w.trace, Said(Reply(334, "")));
    if HasLine(w.input.bytes) {
      BetweenStep(u.trace, said.trace, Continued(Trim(FirstLine(w.input.bytes))));
    }
  }

  lemma AskExchanges(env: Env, u: Wire, w: Wire, mech: string, user: Octets, password: Octets)
    requires Reading(u, w)
    ensures var (v, end) := AskAuth(env, w, mech, user, password); Exchanged(env, u, v, end)
  {
    BetweenStep(u.trace, w.trace, AuthAsked(mech, user, password, env.auth(Now(w)).ok));
  }

  lemma AskPlainExchanges(env: Env, u: Wire, w: Wire, data: Option<Octets>)
    requires Reading(u, w)
    ensures var (v, end) := AskPlain(env, w, data); Exchanged(env, u, v, end)
  {
    if data.Some? && |SplitAt(data.value, 0)| == 3 {
      AskExchanges(env, u, w, "PLAIN", SplitAt(data.value, 0)[1], SplitAt(data.value, 0)[2]);
    }
  }

  lemma AskCramMd5Exchanges(env: Env, u: Wire, w: Wire, data: Option<Octets>)
    requires Reading(u, w)
    ensures var (v, end) := AskCramMd5(env, w, data); Exchanged(env, u, v, end)
  {
    if data.Some? && |SplitAt(data.value, 32)| >= 2 {
      AskExchanges(env, u, w, "CRAM-MD5", SplitAt(data.value, 32)[0], SplitAt(data.value, 32)[1]);
    }
  }

  lemma AskLoginExchanges(env: Env, u: Wire, w: Wire, user: Option<Octets>)
    requires Reading(u, w)
    ensures var (v, end) := AskLogin(env, w, user); Exchanged(env, u, v, end)
  {
    ChallengeReads(u, w);
    var (v, line) := ReadMore(Say(w, 334, ""));
    if user.Some? && line.Some? && Decode(line.value).Some? {
      AskExchanges(env, u, v, "LOGIN", user.value, Decode(line.value).value);
    }
  }

  lemma ExchangeExchanges(env: Env, w: Wire, mech: string, arg: string)
    ensures var (v, end) := Exchange(env, w, mech, arg); Exchanged(env, w, v, end)
  {
    ChallengeReads(w, w);
    var (v, line) := ReadMore(Say(w, 334, ""));
    if mech != "PLAIN" && mech != "LOGIN" {
      if line.Some? && line.value != "*" {
        AskCramMd5Exchanges(env, w, v, Decode(line.value));
      }
    } else if arg != "" {
      AskPlainExchanges(env, w, w, Decode(arg));
      AskLoginExchanges(env, w, w, Decode(arg));
    } else if line.Some? {
      AskPlainExchanges(env, w, v, Decode(line.value));
      AskLoginExchanges(env, w, v, Decode(line.value));
    }
  }
}
