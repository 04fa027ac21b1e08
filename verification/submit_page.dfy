/**
 * The submission form of src/app/submit/page.tsx: the URL allow-list, the
 * validation of the four fields, and the form state around the insert.
 */
module SubmitPage {
  import opened Optional
  import opened Strings
  import opened Urls
  import opened ClipParser
  import opened Rows

  // ---------------------------------------------------------------------------
  // isAllowedUrl

  const AllowedHosts: set<string> :=
    {"youtube.com", "www.youtube.com", "youtu.be", "twitch.tv", "www.twitch.tv", "clips.twitch.tv"}

  /** `isAllowedUrl(input)`: the input parses, uses https, and names one of the six hosts exactly. */
  predicate IsAllowedUrl(parse: Parser, input: string) {
    match parse(input)
    case None => false
    case Some(u) => u.protocol == "https:" && u.hostname in AllowedHosts
  }

  /**
   * The allow-list matches whole host names only: no subdomain, port-less
   * lookalike or other scheme gets through, and a URL that does not parse is refused.
   */
  lemma AllowedUrlExactly(parse: Parser, input: string)
    ensures IsAllowedUrl(parse, input) <==>
      parse(input).Some? && parse(input).value.protocol == "https:" && parse(input).value.hostname in AllowedHosts
    ensures parse(input).Some? && parse(input).value.hostname in {"m.youtube.com", "youtube.com.evil.example", "www.youtu.be"}
      ==> !IsAllowedUrl(parse, input)
    ensures parse(input).Some? && parse(input).value.protocol == "http:" ==> !IsAllowedUrl(parse, input)
  {
  }

  /**
   * Every https URL the player can embed is accepted, except the two "www." forms
   * the classifier strips but the allow-list does not list.
   */
  lemma EmbeddableIsAllowed(parse: Parser, input: string)
    requires !ParseClip(parse, input).Unknown?
    requires parse(input).value.protocol == "https:"
    requires parse(input).value.hostname !in {"www.youtu.be", "www.clips.twitch.tv"}
    ensures IsAllowedUrl(parse, input)
  {
    var u := parse(input).value;
    assert ParseClip(parse, input) == Classify(u);
    ClipHostAllowed(u.hostname);
  }

  lemma ClipHostAllowed(h: string)
    requires StripWww(h) in {"youtube.com", "youtu.be", "clips.twitch.tv"}
    requires h !in {"www.youtu.be", "www.clips.twitch.tv"}
    ensures h in AllowedHosts
  {
    var d := StripWww(h);
    if HasPrefix(h, "www.") {
      assert h == "www." + d;
      assert "www." + "youtu.be" == "www.youtu.be";
      assert "www." + "clips.twitch.tv" == "www.clips.twitch.tv";
      assert "www." + "youtube.com" == "www.youtube.com";
    }
  }

  /** An accepted URL need not be a clip: a twitch.tv channel page is accepted and then classified unknown. */
  lemma AllowedButNotEmbeddable(parse: Parser, input: string)
    requires parse(input) == Some(Url("https:", "twitch.tv", "twitch.tv", "/somechannel", []))
    ensures IsAllowedUrl(parse, input)
    ensures ParseClip(parse, input).Unknown?
  {
    assert "twitch.tv"[0] == 't';
  }

  // ---------------------------------------------------------------------------
  // onSubmit

  /** The row the form inserts; the author is not sent. */
  datatype NewClip = NewClip(url: string, title: string, game: string)

  datatype MessageKind = Ok | Err
  datatype Message = Message(kind: MessageKind, text: string)

  const InvalidUrlText: string := "URL non valido o non supportato. Solo YouTube e Twitch (https)."
  const MissingFieldsText: string := "Titolo e Gioco sono obbligatori."
  const SaveErrorPrefix: string := "Errore salvataggio: "
  /** "Clip inviata! " followed by the three characters the source file holds where a check-mark emoji was meant. */
  const SuccessText: string := "Clip inviata! \U{00E2}\U{0153}\U{2026}"

  /** The outcome of the checks that run before the insert. */
  datatype Validation = InvalidUrl | MissingFields | Accepted(clip: NewClip)

  /** The error line a rejected form shows. */
  function RejectionText(v: Validation): string
    requires !v.Accepted?
  {
    if v.InvalidUrl? then InvalidUrlText else MissingFieldsText
  }

  /**
   * The checks of `onSubmit`, on the trimmed fields: the URL first, then title
   * and game; an accepted form yields the trimmed URL, title and game.
   */
  function Validate(parse: Parser, url: string, title: string, game: string): (v: Validation)
    ensures v.InvalidUrl? <==> !IsAllowedUrl(parse, Trim(url))
    ensures v.MissingFields? <==>
      IsAllowedUrl(parse, Trim(url)) && (AllWhitespace(title) || AllWhitespace(game))
    ensures v.Accepted? ==> v.clip == NewClip(Trim(url), Trim(title), Trim(game))
    ensures v.Accepted? ==> v.clip.title != "" && v.clip.game != "" && Trimmed(v.clip.title) && Trimmed(v.clip.game)
  {
    var cleanUrl := Trim(url);
    var cleanTitle := Trim(title);
    var cleanGame := Trim(game);
    if !IsAllowedUrl(parse, cleanUrl) then InvalidUrl
    else if cleanTitle == "" || cleanGame == "" then MissingFields
    else Accepted(NewClip(cleanUrl, cleanTitle, cleanGame))
  }

  /** Surrounding whitespace never changes the verdict or the inserted row. */
  lemma ValidateIgnoresPadding(parse: Parser, url: string, title: string, game: string)
    ensures Validate(parse, Trim(url), Trim(title), Trim(game)) == Validate(parse, url, title, game)
  {
    TrimIdempotent(url);
    TrimIdempotent(title);
    TrimIdempotent(game);
  }

  /** The form's state: its four inputs, the loading flag and the message line. */
  class SubmitForm {
    var url: string
    var title: string
    var game: string
    var author: string
    var loading: bool
    var msg: Option<Message>

    constructor()
      ensures url == "" && title == "" && game == "" && author == ""
      ensures !loading && msg.None?
    {
      url, title, game, author := "", "", "", "";
      loading := false;
      msg := None;
    }

    /** Typing into the inputs. */
    method Edit(url: string, title: string, game: string, author: string)
      modifies this
      ensures this.url == url && this.title == title && this.game == game && this.author == author
      ensures loading == old(loading) && msg == old(msg)
    {
      this.url, this.title, this.game, this.author := url, title, game, author;
    }

    /**
     * `onSubmit` up to the insert: the message is cleared and the fields checked.
     * A rejected form shows the error and returns with `loading` untouched; an
     * accepted one sets `loading` and hands back the row to insert.
     */
    method BeginSubmit(parse: Parser) returns (request: Option<NewClip>)
      modifies this
      ensures var v := Validate(parse, old(url), old(title), old(game));
        && (!v.Accepted? ==> request.None? && msg == Some(Message(Err, RejectionText(v))) && loading == old(loading))
        && (v.Accepted? ==> request == Some(v.clip) && msg.None? && loading)
      ensures url == old(url) && title == old(title) && game == old(game) && author == old(author)
    {
      msg := None;
      var v := Validate(parse, url, title, game);
      if !v.Accepted? {
        msg := Some(Message(Err, RejectionText(v)));
        request := None;
        return;
      }
      loading := true;
      request := Some(v.clip);
    }

    /**
     * `onSubmit` after the insert has answered: success shows the confirmation and
     * empties all four inputs; an error shows its message and keeps them; either
     * way `loading` ends false.
     */
    method FinishSubmit(result: InsertResult)
      modifies this
      ensures !loading
      ensures result.InsertOk? ==>
        msg == Some(Message(Ok, SuccessText)) && url == "" && title == "" && game == "" && author == ""
      ensures result.InsertErr? ==>
        && msg == Some(Message(Err, SaveErrorPrefix + result.message))
        && url == old(url) && title == old(title) && game == old(game) && author == old(author)
    {
      match result {
        case InsertErr(_, message) =>
          msg := Some(Message(Err, SaveErrorPrefix + message));
        case InsertOk =>
          msg := Some(Message(Ok, SuccessText));
          url, title, game, author := "", "", "", "";
      }
      loading := false;
    }

    /** The whole of `onSubmit`, with `result` the answer of the insert when one is sent. */
    method Submit(parse: Parser, result: InsertResult) returns (request: Option<NewClip>)
      modifies this
      ensures var v := Validate(parse, old(url), old(title), old(game));
        && (!v.Accepted? ==>
              && request.None? && msg == Some(Message(Err, RejectionText(v))) && loading == old(loading)
              && url == old(url) && title == old(title) && game == old(game) && author == old(author))
        && (v.Accepted? ==> request == Some(v.clip) && !loading)
      ensures request.Some? && result.InsertOk? ==>
        msg == Some(Message(Ok, SuccessText)) && url == "" && title == "" && game == "" && author == ""
      ensures request.Some? && result.InsertErr? ==>
        && msg == Some(Message(Err, SaveErrorPrefix + result.message))
        && url == old(url) && title == old(title) && game == old(game) && author == old(author)
    {
      request := BeginSubmit(parse);
      if request.Some? {
        FinishSubmit(result);
      }
    }
  }
}
