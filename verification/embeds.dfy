/**
 * The fixed addresses of the two embeddable players, shared by the overlay
 * player (PlayerModal.tsx) and the hover preview (LeaderboardClient.tsx).
 */
module Embeds {

  // Each address is written as short literal pieces: the verifier checks facts
  // about characters of a short literal cheaply, and of a long one slowly.

  /** YouTube's privacy-enhanced embed, followed by the video id. */
  const YouTubeEmbedBase: string := "https://" + "www.youtube" + "-nocookie" + ".com" + "/embed/"

  /** Twitch's clip embed, whose query names the clip. */
  const TwitchEmbedBase: string := "https://" + "clips" + ".twitch" + ".tv" + "/embed"

  /** Neither address contains a query or fragment delimiter, so the query written after it is the whole query. */
  lemma BasesHaveNoDelimiters()
    ensures '?' !in YouTubeEmbedBase && '#' !in YouTubeEmbedBase
    ensures '?' !in TwitchEmbedBase && '#' !in TwitchEmbedBase
  {
  }
}
