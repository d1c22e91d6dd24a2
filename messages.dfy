/**
 * The message embed and message records (core/message.hpp).
 */
module Messages {
  import opened Users

  /** The embed object; only its first four fields are declared. */
  datatype Embed = Embed(title: string, embedType: string, description: string, url: string) {
    /**
     * `operator bool`: an embed is falsy exactly when its title and its
     * description are both empty. The comment above the operator says a
     * valid embed needs a title and a description; the code accepts either.
     */
    predicate ToBool() {
      !(title == "" && description == "")
    }
  }

  lemma EmbedTruthyIff(e: Embed)
    ensures e.ToBool() <==> e.title != "" || e.description != ""
  {}

  lemma EmptyEmbedIsFalsy(embedType: string, url: string)
    ensures !Embed("", embedType, "", url).ToBool()
  {}

  /** A title alone is enough, contrary to the comment on the operator. */
  lemma TitleOnlyEmbedIsTruthy(title: string, embedType: string, url: string)
    requires title != ""
    ensures Embed(title, embedType, "", url).ToBool()
  {}

  /** A description alone is enough, contrary to the comment on the operator. */
  lemma DescriptionOnlyEmbedIsTruthy(embedType: string, description: string, url: string)
    requires description != ""
    ensures Embed("", embedType, description, url).ToBool()
  {}

  /** Truthiness does not look at the type or the url. */
  lemma EmbedTruthIgnoresTypeAndUrl(e: Embed, embedType: string, url: string)
    ensures e.(embedType := embedType, url := url).ToBool() == e.ToBool()
  {}

  /** The message object. */
  datatype Message = Message(
    id: string,
    channelId: string,
    guildId: string,
    author: User,
    content: string,
    timestamp: string,
    editedTimestamp: string,
    tts: bool,
    mentionEveryone: bool
  )

  /**
   * A message as its declaration initialises it. Its author is a default
   * user, whose uninitialised flag and premium fields are parameters.
   */
  function DefaultMessage(flags: UserFlag, premiumType: PremiumType, publicFlags: UserFlag): (m: Message)
    ensures !m.tts && !m.mentionEveryone
    ensures m.id == m.channelId == m.guildId == m.content == m.timestamp == m.editedTimestamp == ""
    ensures m.author == DefaultUser(flags, premiumType, publicFlags)
  {
    Message("", "", "", DefaultUser(flags, premiumType, publicFlags), "", "", "", false, false)
  }
}
