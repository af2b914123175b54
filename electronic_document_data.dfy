/**
 * The electronic-document-delivery (EDD) part of a hold request: the
 * `ElectronicDocumentData` object, a holder of eight nullable strings whose
 * setters assign one field each.
 */
module ElectronicDocuments {
  import opened Wrappers

  /**
   * The eight fields of an `ElectronicDocumentData` object, as a value. The
   * same shape describes the `docDeliveryData` object of a request body, where
   * `None` stands for a key that is absent or `null`.
   */
  datatype EddData = EddData(
    emailAddress: Option<string>,
    chapterTitle: Option<string>,
    startPage: Option<string>,
    endPage: Option<string>,
    author: Option<string>,
    issue: Option<string>,
    volume: Option<string>,
    requestNotes: Option<string>)

  /** A freshly constructed object: every field `null`. */
  const EMPTY_EDD := EddData(None, None, None, None, None, None, None, None)

  class ElectronicDocumentData {
    var emailAddress: Option<string>
    var chapterTitle: Option<string>
    var startPage: Option<string>
    var endPage: Option<string>
    var author: Option<string>
    var issue: Option<string>
    var volume: Option<string>
    var requestNotes: Option<string>

    /** The object's fields as one value. */
    function Value(): EddData
      reads this
    {
      EddData(emailAddress, chapterTitle, startPage, endPage, author, issue, volume, requestNotes)
    }

    /**
     * Construction from a decoded JSON object: the setter of every key that is
     * present is called with its value, so the object ends up holding exactly
     * the given fields.
     */
    constructor FromArray(data: EddData)
      ensures Value() == data
    {
      emailAddress, chapterTitle, startPage, endPage := None, None, None, None;
      author, issue, volume, requestNotes := None, None, None, None;
      new;
      if data.emailAddress.Some? { SetEmailAddress(data.emailAddress.value); }
      if data.chapterTitle.Some? { SetChapterTitle(data.chapterTitle.value); }
      if data.startPage.Some? { SetStartPage(data.startPage.value); }
      if data.endPage.Some? { SetEndPage(data.endPage.value); }
      if data.author.Some? { SetAuthor(data.author); }
      if data.issue.Some? { SetIssue(data.issue); }
      if data.volume.Some? { SetVolume(data.volume); }
      if data.requestNotes.Some? { SetRequestNotes(data.requestNotes); }
    }

    function GetEmailAddress(): Option<string> reads this { emailAddress }
    function GetChapterTitle(): Option<string> reads this { chapterTitle }
    function GetStartPage(): Option<string> reads this { startPage }
    function GetEndPage(): Option<string> reads this { endPage }
    function GetAuthor(): Option<string> reads this { author }
    function GetIssue(): Option<string> reads this { issue }
    function GetVolume(): Option<string> reads this { volume }
    function GetRequestNotes(): Option<string> reads this { requestNotes }

    // The four setters declared with a `string` parameter cannot store null.

    method SetEmailAddress(emailAddress: string)
      modifies this
      ensures GetEmailAddress() == Some(emailAddress)
      ensures Value() == old(Value()).(emailAddress := Some(emailAddress))
    {
      this.emailAddress := Some(emailAddress);
    }

    method SetChapterTitle(chapterTitle: string)
      modifies this
      ensures GetChapterTitle() == Some(chapterTitle)
      ensures Value() == old(Value()).(chapterTitle := Some(chapterTitle))
    {
      this.chapterTitle := Some(chapterTitle);
    }

    method SetStartPage(startPage: string)
      modifies this
      ensures GetStartPage() == Some(startPage)
      ensures Value() == old(Value()).(startPage := Some(startPage))
    {
      this.startPage := Some(startPage);
    }

    method SetEndPage(endPage: string)
      modifies this
      ensures GetEndPage() == Some(endPage)
      ensures Value() == old(Value()).(endPage := Some(endPage))
    {
      this.endPage := Some(endPage);
    }

    // The four untyped setters accept null.

    method SetAuthor(author: Option<string>)
      modifies this
      ensures GetAuthor() == author
      ensures Value() == old(Value()).(author := author)
    {
      this.author := author;
    }

    method SetIssue(issue: Option<string>)
      modifies this
      ensures GetIssue() == issue
      ensures Value() == old(Value()).(issue := issue)
    {
      this.issue := issue;
    }

    method SetVolume(volume: Option<string>)
      modifies this
      ensures GetVolume() == volume
      ensures Value() == old(Value()).(volume := volume)
    {
      this.volume := volume;
    }

    method SetRequestNotes(requestNotes: Option<string>)
      modifies this
      ensures GetRequestNotes() == requestNotes
      ensures Value() == old(Value()).(requestNotes := requestNotes)
    {
      this.requestNotes := requestNotes;
    }
  }
}
