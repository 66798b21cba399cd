/** The data tables of `utils/constants.py` that the core reads, in their
    declaration order (Python dicts iterate in insertion order), and two
    literals the core writes out inline, named after the equal constants. */
module Constants {

  /** `TRAIN_CLASSES`: class code and its display name. */
  const TrainClasses: seq<(string, string)> := [
    ("1A", "First AC"),
    ("2A", "Second AC"),
    ("3A", "Third AC"),
    ("SL", "Sleeper"),
    ("CC", "Chair Car"),
    ("2S", "Second Sitting"),
    ("EC", "Executive Chair Car"),
    ("FC", "First Class")
  ]

  /** `MAJOR_STATIONS`: station code and station name. */
  const MajorStations: seq<(string, string)> := [
    ("NDLS", "New Delhi"),
    ("BCT", "Mumbai Central"),
    ("CSTM", "Mumbai CST"),
    ("HWH", "Howrah"),
    ("MAS", "Chennai Central"),
    ("SBC", "Bengaluru"),
    ("PUNE", "Pune Junction"),
    ("ADI", "Ahmedabad"),
    ("CNB", "Kanpur Central"),
    ("LKO", "Lucknow")
  ]

  /** The status text `handle_stop_listening` emits. The handler writes the
      literal `'Click to start'`; it equals `STATUS_MESSAGES['IDLE']`. */
  const IdleMessage := "Click to start"

  /** How far ahead a journey may be booked. `is_valid_travel_date` writes
      the literal `shift(days=120)`; it equals `LIMITS['MAX_FUTURE_DAYS']`. */
  const MaxFutureDays := 120
}
