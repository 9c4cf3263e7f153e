/** The "execute all" handler of static/js/script.js: it re-extracts the
    commands of the assistant answer and sends them to the backend's
    execute-command endpoint one at a time, in order, stopping at the first
    one that fails. */
module Runner {
  import opened Report
  import Extractor

  /** What awaiting one execute-command request gives: the parsed reply, or
      an exception thrown while awaiting or reporting it. */
  datatype Reply = Reply(success: bool, message: string) | Thrown(cause: string)

  /** A call that lets the loop go on. */
  predicate Succeeded(r: Reply) {
    r.Reply? && r.success
  }

  /** The log line for one attempted command. */
  function ReportLine(command: string, r: Reply): Line
  {
    match r
    case Reply(ok, msg) =>
      if ok then Line(Success, "\U{2705} " + command + "\n" + msg)
      else Line(Error, "\U{274C} " + command + "\n" + msg)
    case Thrown(cause) => Line(Error, "\U{274C} " + command + "\nError: " + cause)
  }

  /** The number of requests made for `n` commands when the i-th request
      gets `reply(i)`, counting from call `i` on. */
  function AttemptsFrom(n: nat, reply: nat -> Reply, i: nat): nat
    requires i <= n
    decreases n - i
  {
    if i == n then n
    else if !Succeeded(reply(i)) then i + 1
    else AttemptsFrom(n, reply, i + 1)
  }

  /** The number of requests made for `n` commands. */
  function Attempts(n: nat, reply: nat -> Reply): nat
  {
    AttemptsFrom(n, reply, 0)
  }

  /** The count is the index of the first failing call plus one, or `n` when
      no call fails: at most `n` calls, every call but the last succeeded,
      and stopping early means the last call failed. These three facts
      determine the count. */
  lemma {:induction false} AttemptsIsFirstFailure(n: nat, reply: nat -> Reply, k: nat)
    ensures k == Attempts(n, reply) <==>
      k <= n
      && (forall j :: 0 <= j < k - 1 ==> Succeeded(reply(j)))
      && (k < n ==> k > 0 && !Succeeded(reply(k - 1)))
  {
    AttemptsFromIsFirstFailure(n, reply, 0);
  }

  lemma {:induction false} AttemptsFromIsFirstFailure(n: nat, reply: nat -> Reply, i: nat)
    requires i <= n
    ensures i <= AttemptsFrom(n, reply, i) <= n
    ensures forall j :: i <= j < AttemptsFrom(n, reply, i) - 1 ==> Succeeded(reply(j))
    ensures AttemptsFrom(n, reply, i) < n ==>
              AttemptsFrom(n, reply, i) > i && !Succeeded(reply(AttemptsFrom(n, reply, i) - 1))
    decreases n - i
  {
    if i < n && Succeeded(reply(i)) {
      AttemptsFromIsFirstFailure(n, reply, i + 1);
    }
  }

  /** Three commands whose second call fails: two calls are made. */
  lemma SecondOfThreeFails(reply: nat -> Reply)
    requires Succeeded(reply(0)) && !Succeeded(reply(1))
    ensures Attempts(3, reply) == 2
  {
  }

  /** Commands that all succeed are all sent. */
  lemma {:induction false} AllSucceedAllSent(n: nat, reply: nat -> Reply)
    requires forall j :: 0 <= j < n ==> Succeeded(reply(j))
    ensures Attempts(n, reply) == n
  {
    AttemptsIsFirstFailure(n, reply, n);
  }

  /** The loop of the handler: `sent` are the commands for which a request
      was made, in the order made, and `log` the lines reported. */
  method RunSequentially(commands: seq<string>, reply: nat -> Reply) returns (sent: seq<string>, log: seq<Line>)
    ensures |sent| == Attempts(|commands|, reply)
    ensures |sent| <= |commands| && sent == commands[..|sent|]
    ensures forall j :: 0 <= j < |sent| - 1 ==> Succeeded(reply(j))
    ensures |sent| < |commands| ==> |sent| > 0 && !Succeeded(reply(|sent| - 1))
    ensures |log| == |sent|
    ensures forall j :: 0 <= j < |log| ==> log[j] == ReportLine(commands[j], reply(j))
  {
    sent, log := [], [];
    for i := 0 to |commands|
      invariant sent == commands[..i] && |log| == i
      invariant forall j :: 0 <= j < i ==> Succeeded(reply(j))
      invariant forall j :: 0 <= j < i ==> log[j] == ReportLine(commands[j], reply(j))
      invariant Attempts(|commands|, reply) == AttemptsFrom(|commands|, reply, i)
    {
      var command := commands[i];
      var r := reply(i);
      sent := sent + [command];
      log := log + [ReportLine(command, r)];
      assert commands[..i + 1] == commands[..i] + [command];
      if !Succeeded(r) {
        break;
      }
    }
  }

  /** The whole handler: extract, then run. */
  method ExecuteAll(codes: seq<string>, pres: seq<string>, reply: nat -> Reply)
    returns (sent: seq<string>, log: seq<Line>)
    ensures var commands := Extractor.Extract(codes, pres);
      |sent| == Attempts(|commands|, reply) && |sent| <= |commands| && sent == commands[..|sent|]
    ensures forall j :: 0 <= j < |sent| ==> Extractor.IsGitCommand(sent[j])
    ensures |log| == |sent|
    ensures forall j :: 0 <= j < |log| ==> log[j] == ReportLine(sent[j], reply(j))
  {
    var commands := Extractor.ExtractGitCommands(codes, pres);
    sent, log := RunSequentially(commands, reply);
  }
}
