/**
 * The ValueError text that the must-run and variable operational types
 * raise from their startup and shutdown rules
 * (modules/project/operations/operational_types/must_run.py,
 * modules/generation/operations/operational_types/variable.py).
 */
module RuleErrors {

  /** The text before the generator's quoted name. */
  function MessageLead(generators: string, cost: string): string {
    "ERROR! " + generators + " generators should not incur " + cost + " costs." + "\n"
    + "Check input data for generator "
  }

  /** The text after the generator's quoted name. */
  function MessageTail(cost: string): string {
    "\n" + "and change its " + cost + " costs to '.' (no value)."
  }

  /**
   * The message for generator g: it holds `'g'` right after the lead, so
   * it names the generator.
   */
  function NoCostMessage(generators: string, cost: string, g: string): (msg: string)
    ensures |msg| == |MessageLead(generators, cost)| + |g| + 2 + |MessageTail(cost)|
    ensures msg[|MessageLead(generators, cost)|..|MessageLead(generators, cost)| + |g| + 2] == "'" + g + "'"
  {
    var lead := MessageLead(generators, cost);
    var msg := lead + ("'" + g + "'") + MessageTail(cost);
    assert msg[|lead|..|lead| + |g| + 2] == "'" + g + "'";
    msg
  }

  /**
   * `msg` names generator g: right after the lead it holds g's name in
   * single quotes.
   */
  predicate NamesGenerator(msg: string, generators: string, cost: string, g: string) {
    var n := |MessageLead(generators, cost)|;
    n + |g| + 2 <= |msg| && msg[..n] == MessageLead(generators, cost) && msg[n..n + |g| + 2] == "'" + g + "'"
  }

  /** Different generators get different messages: the message identifies the generator. */
  lemma MessageIdentifiesGenerator(generators: string, cost: string, g1: string, g2: string)
    requires NoCostMessage(generators, cost, g1) == NoCostMessage(generators, cost, g2)
    ensures g1 == g2
  {
    var n := |MessageLead(generators, cost)|;
    var m := NoCostMessage(generators, cost, g1);
    assert |g1| == |g2|;
    assert ("'" + g1 + "'")[1..|g1| + 1] == g1;
    assert ("'" + g2 + "'")[1..|g2| + 1] == g2;
    assert m[n..n + |g1| + 2] == "'" + g1 + "'";
  }
}
