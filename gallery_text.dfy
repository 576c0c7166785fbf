/** The literal pieces of the textual compute-gallery image ID, each split at
    its slashes. Kept apart so that these facts about string literals are proved
    without the converters' definitions in scope. */
module GalleryIDText {

  // One literal per lemma: together in one proof they are costly for the solver.

  lemma SubscriptionsPiece()
    ensures "/subscriptions/" == "/" + "subscriptions" + "/"
  {
  }

  lemma ResourceGroupsPiece()
    ensures "/resourceGroups/" == "/" + "resourceGroups" + "/"
  {
  }

  lemma ProvidersPiece()
    ensures "/providers/" == "/" + "providers" + "/"
  {
  }

  lemma GalleriesPiece()
    ensures "/galleries/" == "/" + "galleries" + "/"
  {
  }

  lemma ImagesPiece()
    ensures "/images/" == "/" + "images" + "/"
  {
  }

  lemma VersionsPiece()
    ensures "/versions/" == "/" + "versions" + "/"
  {
  }

  lemma ProviderPathPiece()
    ensures "/providers/Microsoft.Compute/galleries/" == "/providers/" + "Microsoft.Compute" + "/galleries/"
  {
  }
}
