/**
 * `StockPrediction`: the run settings (ticker, start date, validation date and project
 * folder), held as four fields with a getter and a setter each.
 */
module StockPredictionSettings {
  import opened MarketData

  class StockPrediction {
    var ticker: string
    var startDate: Date
    var validationDate: Date
    var projectFolder: string

    /** Stores the four settings exactly as given. */
    constructor (ticker: string, startDate: Date, validationDate: Date, projectFolder: string)
      ensures this.ticker == ticker && this.startDate == startDate
      ensures this.validationDate == validationDate && this.projectFolder == projectFolder
    {
      this.ticker := ticker;
      this.startDate := startDate;
      this.validationDate := validationDate;
      this.projectFolder := projectFolder;
    }

    method GetTicker() returns (value: string)
      ensures value == ticker
    {
      value := ticker;
    }

    /** Replaces the ticker; the other three settings stay as they were. */
    method SetTicker(value: string)
      modifies this
      ensures ticker == value
      ensures startDate == old(startDate) && validationDate == old(validationDate)
      ensures projectFolder == old(projectFolder)
    {
      ticker := value;
    }

    method GetStartDate() returns (value: Date)
      ensures value == startDate
    {
      value := startDate;
    }

    /** Replaces the start date; the other three settings stay as they were. */
    method SetStartDate(value: Date)
      modifies this
      ensures startDate == value
      ensures ticker == old(ticker) && validationDate == old(validationDate)
      ensures projectFolder == old(projectFolder)
    {
      startDate := value;
    }

    method GetValidationDate() returns (value: Date)
      ensures value == validationDate
    {
      value := validationDate;
    }

    /** Replaces the validation date; the other three settings stay as they were. */
    method SetValidationDate(value: Date)
      modifies this
      ensures validationDate == value
      ensures ticker == old(ticker) && startDate == old(startDate)
      ensures projectFolder == old(projectFolder)
    {
      validationDate := value;
    }

    method GetProjectFolder() returns (value: string)
      ensures value == projectFolder
    {
      value := projectFolder;
    }

    /** Replaces the project folder; the other three settings stay as they were. */
    method SetProjectFolder(value: string)
      modifies this
      ensures projectFolder == value
      ensures ticker == old(ticker) && startDate == old(startDate)
      ensures validationDate == old(validationDate)
    {
      projectFolder := value;
    }
  }

  /** A client of the class: each getter called right after its setter returns the value
      just set, and a later setter of another field does not disturb it. */
  method SetThenGet(p: StockPrediction, ticker: string, startDate: Date, validationDate: Date,
                    projectFolder: string)
    returns (t: string, s: Date, v: Date, f: string)
    modifies p
    ensures t == ticker && s == startDate && v == validationDate && f == projectFolder
    ensures p.ticker == ticker && p.startDate == startDate
    ensures p.validationDate == validationDate && p.projectFolder == projectFolder
  {
    p.SetTicker(ticker);
    t := p.GetTicker();
    p.SetStartDate(startDate);
    s := p.GetStartDate();
    p.SetValidationDate(validationDate);
    v := p.GetValidationDate();
    p.SetProjectFolder(projectFolder);
    f := p.GetProjectFolder();
  }
}
