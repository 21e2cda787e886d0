/**
 * The command console: a text input, four quick-command buttons, the list of
 * commands sent and the list of responses received, and a toggle that shows
 * the two side by side. Sends go through the realtime channel's
 * `sendMessage`, guarded by the channel's `connected` flag.
 */
module CommandConsole {
  import RealtimeChannel

  /** The quick commands: button label and the command it sends. */
  const SampleCommands: seq<(string, string)> := [
    ("Check Status", "status"),
    ("List Devices", "devices"),
    ("Screen Info", "screen"),
    ("App Info", "appinfo")
  ]

  /** Label of a history entry that has no command at its index. */
  const Unknown: string := "unknown"
  /** The key that sends the typed command. */
  const EnterKey: string := "Enter"

  /** `cmd` is the command of one of the quick-command buttons. */
  predicate IsPreset(cmd: string) {
    exists k :: 0 <= k < |SampleCommands| && SampleCommands[k].1 == cmd
  }

  /** One entry of the history panel: a command label beside a response. */
  datatype HistoryEntry = HistoryEntry(command: string, response: RealtimeChannel.JsonValue)

  /** `commandHistory[index] || 'unknown'`: a missing or empty command shows as "unknown". */
  function CommandLabel(commands: seq<string>, index: nat): (text: string)
    ensures text != ""
    ensures index < |commands| && commands[index] != "" ==> text == commands[index]
    ensures index >= |commands| || commands[index] == "" ==> text == Unknown
  {
    if index < |commands| && commands[index] != "" then commands[index] else Unknown
  }

  /** No quick command is empty. */
  lemma PresetsNonEmpty(cmd: string)
    requires IsPreset(cmd)
    ensures cmd != ""
  {
  }

  class Console {
    /** The text typed in the input. */
    var command: string
    var commandHistory: seq<string>
    var responseHistory: seq<RealtimeChannel.JsonValue>
    var showHistory: bool

    /** Every recorded command is non-empty, and every recorded response is truthy. */
    ghost predicate Valid()
      reads this
    {
      && (forall k :: 0 <= k < |commandHistory| ==> commandHistory[k] != "")
      && (forall k :: 0 <= k < |responseHistory| ==> RealtimeChannel.Truthy(responseHistory[k]))
    }

    constructor ()
      ensures Valid()
      ensures command == "" && commandHistory == [] && responseHistory == [] && !showHistory
    {
      command := "";
      commandHistory := [];
      responseHistory := [];
      showHistory := false;
    }

    /**
     * The effect of `handleSendCommand`: with a non-empty command and a
     * connected channel, send exactly the typed command, append it to the
     * history and clear the input; otherwise nothing changes, here or in the channel.
     */
    twostate predicate SendCommandEffect(channel: RealtimeChannel.Client)
      reads this, channel
    {
      if old(command) != "" && old(channel.connected) then
        && channel.SendEffect(old(command))
        && commandHistory == old(commandHistory) + [old(command)]
        && command == ""
        && responseHistory == old(responseHistory) && showHistory == old(showHistory)
      else
        unchanged(this) && unchanged(channel)
    }

    /** `handleCommandChange`: the input shows what was typed. */
    method HandleCommandChange(value: string)
      modifies this
      ensures command == value
      ensures commandHistory == old(commandHistory) && responseHistory == old(responseHistory)
      ensures showHistory == old(showHistory)
    {
      command := value;
    }

    /** `handleSendCommand` */
    method HandleSendCommand(channel: RealtimeChannel.Client)
      requires Valid() && channel.Valid()
      modifies this, channel
      ensures Valid() && channel.Valid()
      ensures SendCommandEffect(channel)
    {
      if command != "" && channel.connected {
        var _ := channel.SendMessage(command);
        commandHistory := commandHistory + [command];
        command := "";
      }
    }

    /**
     * `handlePresetCommand(cmd)`: with a connected channel, send the quick
     * command and append it to the history; the typed input stays as it is.
     */
    method HandlePresetCommand(channel: RealtimeChannel.Client, cmd: string)
      requires Valid() && channel.Valid()
      requires IsPreset(cmd)
      modifies this, channel
      ensures Valid() && channel.Valid()
      ensures old(channel.connected) ==>
        && channel.SendEffect(cmd)
        && commandHistory == old(commandHistory) + [cmd]
        && command == old(command)
        && responseHistory == old(responseHistory) && showHistory == old(showHistory)
      ensures !old(channel.connected) ==> unchanged(this) && unchanged(channel)
    {
      if channel.connected {
        PresetsNonEmpty(cmd);
        var _ := channel.SendMessage(cmd);
        commandHistory := commandHistory + [cmd];
      }
    }

    /** `handleKeyDown`: Enter acts exactly like the Send button; any other key does nothing. */
    method HandleKeyDown(channel: RealtimeChannel.Client, key: string)
      requires Valid() && channel.Valid()
      modifies this, channel
      ensures Valid() && channel.Valid()
      ensures key == EnterKey ==> SendCommandEffect(channel)
      ensures key != EnterKey ==> unchanged(this) && unchanged(channel)
    {
      if key == EnterKey {
        HandleSendCommand(channel);
      }
    }

    /** `toggleHistory`: flip whether the history panel is shown. */
    method ToggleHistory()
      modifies this
      ensures showHistory == !old(showHistory)
      ensures command == old(command) && commandHistory == old(commandHistory)
      ensures responseHistory == old(responseHistory)
    {
      showHistory := !showHistory;
    }

    /**
     * The response effect, run with the channel's new `wsResponse`: a truthy
     * response is appended to the history; the history keeps its order and
     * never shrinks.
     */
    method OnResponse(response: RealtimeChannel.JsonValue)
      requires Valid()
      modifies this
      ensures Valid()
      ensures responseHistory == old(responseHistory) + (if RealtimeChannel.Truthy(response) then [response] else [])
      ensures command == old(command) && commandHistory == old(commandHistory)
      ensures showHistory == old(showHistory)
    {
      if RealtimeChannel.Truthy(response) {
        responseHistory := responseHistory + [response];
      }
    }

    /**
     * What the history panel lists: nothing unless it is toggled on and holds a
     * response; then every response in arrival order, beside the command sent at
     * the same position, or "unknown" past the end of the commands.
     */
    function DisplayedHistory(): (entries: seq<HistoryEntry>)
      reads this
      requires Valid()
      ensures !(showHistory && |responseHistory| > 0) ==> entries == []
      ensures showHistory ==> |entries| == |responseHistory|
      ensures forall i :: 0 <= i < |entries| ==>
        && entries[i].response == responseHistory[i]
        && entries[i].command == (if i < |commandHistory| then commandHistory[i] else Unknown)
    {
      var commands, responses := commandHistory, responseHistory;
      if showHistory && |responses| > 0 then
        seq(|responses|, i requires 0 <= i < |responses| => HistoryEntry(CommandLabel(commands, i), responses[i]))
      else []
    }
  }
}
